/**
 Creations and updates of events that come with a poster (backend/admin.js), as runs.  The checks run first; while the
 poster is being stored any other handler may run, other creations and updates included; then the change is made
 without checking again.
 */
module EventCreation {
  import opened Prelude
  import opened SaleTypes
  import opened Holds
  import opened Commerce
  import opened Inventory
  import opened SaleSteps
  import opened SaleInvariant
  import opened SaleInventory
  import opened SaleHandlers
  import opened SaleFrames
  import opened SaleRuns
  import PaymentRoute
  import opened PosterUpload

  // ---------------------------------------------------------------------------- one creation resumed

  /** Every date and every seat's zone of the new event is one of the recorded event's. */
  predicate FitsRecorded(event: Event, recorded: Event) {
    forall d, s :: d in event.dates && s in SeatsForEvent(event) ==> d in recorded.dates && FindZone(recorded.zones, s.zoneId).Some?
  }

  /** The catalog meets the new event, or a recorded one of the same id that has all its places. */
  predicate RoomFor(db: Db, eventId: string, event: Event) {
    eventId in db.events ==> FitsRecorded(event, db.events[eventId])
  }

  lemma FitsMeansPlaced(s0: Stock, s1: Stock, events: map<string, Event>, eventId: string, event: Event, seats: seq<Seat>)
    requires eventId in events && Placed(s0.tickets, events)
    requires forall id :: id in s1.tickets <==> id in s0.tickets || Regular(id, eventId, event.dates, seats, |event.dates|)
    ensures Placed(s1.tickets, events) <==>
              forall d, s :: d in event.dates && s in seats ==> d in events[eventId].dates && FindZone(events[eventId].zones, s.zoneId).Some?
  {
    assert event.dates[..|event.dates|] == event.dates;
    if Placed(s1.tickets, events) {
      forall d, s | d in event.dates && s in seats
        ensures d in events[eventId].dates && FindZone(events[eventId].zones, s.zoneId).Some?
      {
        var id := SeatKey(eventId, d, s);
        assert id in s1.tickets && HasPlace(id, events);
      }
    }
    if forall d, s :: d in event.dates && s in seats ==> d in events[eventId].dates && FindZone(events[eventId].zones, s.zoneId).Some? {
      forall id | id in s1.tickets ensures HasPlace(id, events) {
        if id in s0.tickets {
          assert HasPlace(id, events);
        } else {
          assert Seat(id.zoneId, id.seat) in seats;
        }
      }
    }
  }

  lemma SecondRecordIsSoundIffItFits(db: Db, opening: seq<int>, eventId: string, event: Event)
    requires Inv(db, opening) && ZonesNormalized(event.zones) && eventId in db.events
    ensures Inv(FinishCreation(db, eventId, event), opening) <==> FitsRecorded(event, db.events[eventId])
  {
    hide Inv, FinishCreation, Minted, OrderOk, Placed, SeatsForEvent, ZonesNormalized, Regular;
    StockFacts(db, opening);
    SecondRecordMints(db, eventId, event);
    var r := FinishCreation(db, eventId, event);
    FitsMeansPlaced(Stock(db.tickets, db.order), Stock(r.tickets, r.order), db.events, eventId, event, SeatsForEvent(event));
    MintedKeepsTheRest(db, r, opening, eventId, event);
  }

  /** A second record adds the tickets it lacks and is otherwise not seen. */
  lemma SecondRecordMints(db: Db, eventId: string, event: Event)
    requires OrderOk(db.tickets, db.order) && eventId in db.events
    ensures var r := FinishCreation(db, eventId, event);
            && r == db.(tickets := r.tickets, order := r.order, ledger := r.ledger)
            && Minted(Stock(db.tickets, db.order), Stock(r.tickets, r.order), eventId, event.zones)
            && forall id :: id in r.tickets <==> id in db.tickets || Regular(id, eventId, event.dates, SeatsForEvent(event), |event.dates|)
  {
    var s0 := Stock(db.tickets, db.order);
    EnsureTicketsResult(s0, eventId, event);
    hide EnsureTickets, Minted, OrderOk, SeatsForEvent, Regular;
    var r := FinishCreation(db, eventId, event);
    forall id ensures id in r.tickets <==> id in db.tickets || Regular(id, eventId, event.dates, SeatsForEvent(event), |event.dates|) {
      assert id in r.tickets <==> id in s0.tickets || RegularKey(id, eventId, event);
    }
  }

  /** Minting keeps everything but, perhaps, that each ticket has its place. */
  lemma MintedKeepsTheRest(db: Db, r: Db, opening: seq<int>, eventId: string, event: Event)
    requires Inv(db, opening) && ZonesNormalized(event.zones)
    requires r == db.(tickets := r.tickets, order := r.order, ledger := r.ledger)
    requires Minted(Stock(db.tickets, db.order), Stock(r.tickets, r.order), eventId, event.zones)
    ensures Inv(r, opening) <==> Placed(r.tickets, r.events)
  {
    MintedOnlyOpen(Stock(db.tickets, db.order), Stock(r.tickets, r.order), eventId, event.zones);
    hide OnlyOpenChanges, SeatsInv, ResaleInv, MoneyInv, ZonesNormalized;
    OpenChangesKeep(db, r, opening, eventId, event.zones);
  }

  /**
   Resuming a creation keeps every ticket on an existing event, date and zone, and everything else the handlers keep,
   if and only if the id is still free or the event that took it has every date and zone of the new one.
   */
  lemma CreationIsSoundIffRoom(db: Db, opening: seq<int>, eventId: string, event: Event)
    requires Inv(db, opening) && ZonesNormalized(event.zones)
    ensures Inv(FinishCreation(db, eventId, event), opening) <==> RoomFor(db, eventId, event)
  {
    hide Inv, FinishCreation, ZonesNormalized, FitsRecorded;
    if eventId in db.events {
      SecondRecordIsSoundIffItFits(db, opening, eventId, event);
    } else {
      FinishCreationKeeps(db, opening, eventId, event);
    }
  }

  // ------------------------------------------------------------------------------------------- runs

  /** A change whose poster is being stored. */
  datatype Paused = Creation(eventId: string, event: Event) | Update(eventId: string, input: SaleInput)

  /**
   The database, the ids of its event records in the order of the array, and the changes begun so far; those in
   `waiting` have not been made yet.
   */
  datatype Console = Console(db: Db, listed: seq<string>, begun: seq<Paused>, waiting: set<nat>)

  datatype Act = Begin(change: Paused) | Resume(c: nat) | Other(step: Step, now: int)

  function Checked(db: Db, change: Paused): Option<Error> {
    match change
    case Creation(eventId, event) => CheckCreation(db, eventId, event)
    case Update(eventId, input) => CheckUpdate(db, eventId, input)
  }

  function Made(console: Console, change: Paused): Console {
    match change
    case Creation(eventId, event) =>
      console.(db := FinishCreation(console.db, eventId, event), listed := console.listed + [eventId])
    case Update(eventId, input) =>
      console.(db := if eventId in console.db.events then ApplyUpdate(console.db, eventId, input) else console.db)
  }

  ghost function React(console: Console, act: Act): Console
    requires Proper(act)
  {
    match act
    case Begin(change) =>
      if Checked(console.db, change).Some? then console
      else console.(begun := console.begun + [change], waiting := console.waiting + {|console.begun|})
    case Resume(c) =>
      if c in console.waiting && c < |console.begun| then Made(console.(waiting := console.waiting - {c}), console.begun[c])
      else console
    case Other(step, now) => console.(db := Apply(console.db, step, now).db)
  }

  ghost predicate Normalized(change: Paused) {
    match change
    case Creation(_, event) => ZonesNormalized(event.zones)
    case Update(_, input) => input.zones.Some? ==> ZonesNormalized(input.zones.value)
  }

  /** Events are only created in two parts here. */
  ghost predicate Proper(act: Act) {
    match act
    case Begin(change) => Normalized(change)
    case Resume(_) => true
    case Other(step, _) => WellFormed(step) && !step.AddEvent?
  }

  /** The change that resumes is no longer what was checked: its id is taken, or a sold ticket would lose its place. */
  predicate Clash(console: Console, act: Act) {
    act.Resume? && act.c in console.waiting && act.c < |console.begun| && Overtaken(console.db, console.begun[act.c])
  }

  predicate Overtaken(db: Db, change: Paused) {
    match change
    case Creation(eventId, _) => eventId in db.events
    case Update(eventId, input) => eventId in db.events && !StillUsable(db, eventId, input)
  }

  /** The handlers' invariant, and one record for each event. */
  ghost predicate CatalogSound(console: Console, opening: seq<int>) {
    && Inv(console.db, opening)
    && NoDuplicates(console.listed) && forall e :: e in console.listed <==> e in console.db.events
  }

  ghost predicate AllNormalized(console: Console) {
    forall change :: change in console.begun ==> Normalized(change)
  }

  lemma MadeIsSoundIffNotOvertaken(console: Console, opening: seq<int>, change: Paused)
    requires CatalogSound(console, opening) && Normalized(change)
    ensures CatalogSound(Made(console, change), opening) <==> !Overtaken(console.db, change)
  {
    hide Inv, FinishCreation, ApplyUpdate, StillUsable, ZonesNormalized;
    match change
    case Creation(eventId, event) =>
      EventsAfterCreation(console.db, eventId, event);
      if eventId in console.db.events {
        assert eventId in console.listed;
        ListedTwice(console.listed, eventId);
      } else {
        FinishCreationKeeps(console.db, opening, eventId, event);
        assert eventId !in console.listed;
      }
    case Update(eventId, input) =>
      if eventId in console.db.events {
        EventsAfterUpdate(console.db, eventId, input);
        SafeAfterUploadIffStillUsable(console.db, opening, eventId, input);
      }
  }

  lemma ListedTwice(listed: seq<string>, id: string)
    requires id in listed
    ensures !NoDuplicates(listed + [id])
  {
    var i :| 0 <= i < |listed| && listed[i] == id;
    assert (listed + [id])[i] == (listed + [id])[|listed|];
  }

  lemma EventsAfterCreation(db: Db, eventId: string, event: Event)
    ensures FinishCreation(db, eventId, event).events.Keys == db.events.Keys + {eventId}
  {
    hide EnsureTickets;
  }

  lemma EventsAfterUpdate(db: Db, eventId: string, input: SaleInput)
    requires eventId in db.events
    ensures ApplyUpdate(db, eventId, input).events.Keys == db.events.Keys
  {
    hide Rebuild, Midway, SeatsForEvent, ActiveSeatKeys;
  }

  /** Whether an act keeps the catalog sound is decided when it happens, by whether it clashes. */
  lemma ActIsSoundIffNoClash(console: Console, opening: seq<int>, act: Act)
    requires CatalogSound(console, opening) && AllNormalized(console) && Proper(act)
    ensures AllNormalized(React(console, act))
    ensures CatalogSound(React(console, act), opening) <==> !Clash(console, act)
  {
    hide Inv, Apply, Made, Overtaken, Checked, Normalized, WellFormed;
    match act
    case Begin(change) =>
    case Resume(c) =>
      if c in console.waiting && c < |console.begun| {
        MadeIsSoundIffNotOvertaken(console.(waiting := console.waiting - {c}), opening, console.begun[c]);
        BegunStays(console.(waiting := console.waiting - {c}), console.begun[c]);
      }
    case Other(step, now) =>
      StepKeeps(console.db, opening, step, now);
      OnlyCreationAddsEvents(console.db, step, now);
  }

  lemma BegunStays(console: Console, change: Paused)
    ensures Made(console, change).begun == console.begun
  {
    hide FinishCreation, ApplyUpdate;
  }

  ghost predicate ProperRun(acts: seq<Act>) {
    forall k {:trigger Proper(acts[k])} :: 0 <= k < |acts| ==> Proper(acts[k])
  }

  /** The console after the first `n` acts. */
  ghost function ConsoleAt(console: Console, acts: seq<Act>, n: nat): Console
    requires ProperRun(acts) && n <= |acts|
  {
    if n == 0 then console
    else
      assert Proper(acts[n - 1]);
      React(ConsoleAt(console, acts, n - 1), acts[n - 1])
  }

  ghost predicate AllSound(console: Console, opening: seq<int>, acts: seq<Act>, n: nat)
    requires ProperRun(acts) && n <= |acts|
  {
    forall k :: 0 <= k <= n ==> CatalogSound(ConsoleAt(console, acts, k), opening)
  }

  ghost predicate NoClash(console: Console, acts: seq<Act>, n: nat)
    requires ProperRun(acts) && n <= |acts|
  {
    forall k :: 0 <= k < n ==> !Clash(ConsoleAt(console, acts, k), acts[k])
  }

  lemma AllSoundStep(console: Console, opening: seq<int>, acts: seq<Act>, n: nat)
    requires ProperRun(acts) && 0 < n <= |acts|
    ensures AllSound(console, opening, acts, n)
            <==> AllSound(console, opening, acts, n - 1) && CatalogSound(ConsoleAt(console, acts, n), opening)
  {
    hide CatalogSound, ConsoleAt, Proper;
  }

  lemma NoClashStep(console: Console, acts: seq<Act>, n: nat)
    requires ProperRun(acts) && 0 < n <= |acts|
    ensures NoClash(console, acts, n)
            <==> NoClash(console, acts, n - 1) && !Clash(ConsoleAt(console, acts, n - 1), acts[n - 1])
  {
    hide Clash, ConsoleAt, Proper;
  }

  /**
   Over any run of creations and updates that overlap one another and every other handler: all states up to the
   `n`th are sound if and only if no change that resumed before then had been overtaken.
   */
  lemma {:induction false} SoundIffNoClash(console: Console, opening: seq<int>, acts: seq<Act>, n: nat)
    requires CatalogSound(console, opening) && console.begun == [] && ProperRun(acts) && n <= |acts|
    ensures AllSound(console, opening, acts, n) <==> NoClash(console, acts, n)
    ensures AllSound(console, opening, acts, n) ==> AllNormalized(ConsoleAt(console, acts, n))
  {
    hide CatalogSound, AllNormalized, React, Clash, Proper;
    if n == 0 {
      NothingBegun(console);
    } else {
      SoundIffNoClash(console, opening, acts, n - 1);
      AllSoundStep(console, opening, acts, n);
      NoClashStep(console, acts, n);
      assert Proper(acts[n - 1]);
      var before := ConsoleAt(console, acts, n - 1);
      if AllSound(console, opening, acts, n - 1) {
        assert CatalogSound(before, opening);
        hide AllSound, NoClash;
        ActIsSoundIffNoClash(before, opening, acts[n - 1]);
      }
    }
  }

  lemma NothingBegun(console: Console)
    requires console.begun == []
    ensures AllNormalized(console)
  {
  }

  // --------------------------------------------------------------------- two creations of one event

  const EARLY := Event("v", [PaymentRoute.SHOP_ZONE], ["d"], true)

  const LATE := Event("v", [PaymentRoute.SHOP_ZONE], ["d2"], true)

  const NO_EVENTS := Console(EMPTY_DB, [], [], {})

  const COLLISION := [Begin(Creation("e", EARLY)), Begin(Creation("e", LATE)), Resume(0), Resume(1)]

  lemma BothPassTheCheck()
    ensures CheckCreation(EMPTY_DB, "e", EARLY).None? && CheckCreation(EMPTY_DB, "e", LATE).None?
  {
    var zones := [PaymentRoute.SHOP_ZONE];
    assert Candidates(zones[1..]) == Some(0);
    assert Candidates(zones) == Some(1);
  }

  lemma NoLayoutForZ()
    ensures !InLayout(SeatLayoutForVenue("v"), "z")
  {
    assert "z" != "zone_vip" && "z" != "zone_r" && "z" != "zone_s";
    hide Numbered;
  }

  lemma LateHasASeat()
    ensures Seat("z", "Z-01") in SeatsForEvent(LATE)
  {
    NoLayoutForZ();
    hide SeatLayoutForVenue, InLayout;
    var zones := [PaymentRoute.SHOP_ZONE];
    FirstOfZone(PaymentRoute.SHOP_ZONE);
    hide GeneratedSeatsForZone;
    assert zones[0] in zones;
    GeneratedMembers(SeatLayoutForVenue("v"), zones, Seat("z", "Z-01"));
    hide GenerateMissing, KeepZones;
    assert PaymentRoute.SHOP_ZONE in zones && !InLayout(SeatLayoutForVenue("v"), PaymentRoute.SHOP_ZONE.id);
    assert "Z" + "-01" == "Z-01";
  }

  lemma FirstOfZone(zone: Zone)
    ensures Seat(zone.id, zone.name + "-01") in GeneratedSeatsForZone(zone)
  {
    FirstOf(zone.id, zone.name, SeatCount(zone));
  }

  lemma {:induction false} FirstOf(zoneId: string, prefix: string, count: nat)
    requires count > 0
    ensures Seat(zoneId, prefix + "-01") in Numbered(zoneId, prefix, 1, count)
  {
    if count == 1 {
      assert Padded(1) == "01";
      assert prefix + "-" + "01" == prefix + "-01";
      assert Numbered(zoneId, prefix, 1, 1) == [Seat(zoneId, prefix + "-01")];
    } else {
      FirstOf(zoneId, prefix, count - 1);
    }
  }

  lemma LateDoesNotFit()
    ensures !FitsRecorded(LATE, EARLY)
  {
    LateHasASeat();
    hide SeatsForEvent;
    assert "d2" in LATE.dates && "d2" !in EARLY.dates;
  }

  lemma EmptyIsProper()
    ensures ProperRun(COLLISION) && CatalogSound(NO_EVENTS, [])
  {
    hide Inv;
    EmptyIsSound();
  }

  const BEGUN := Console(EMPTY_DB, [], [Creation("e", EARLY), Creation("e", LATE)], {0, 1})

  const LANDED := FinishCreation(EMPTY_DB, "e", EARLY)

  lemma BothBegin()
    requires ProperRun(COLLISION)
    ensures ConsoleAt(NO_EVENTS, COLLISION, 2) == BEGUN
  {
    BothPassTheCheck();
    hide CheckCreation;
    assert ConsoleAt(NO_EVENTS, COLLISION, 0) == NO_EVENTS;
    assert Proper(COLLISION[0]) && Proper(COLLISION[1]);
    assert ConsoleAt(NO_EVENTS, COLLISION, 1) == React(NO_EVENTS, COLLISION[0]);
    assert {0} + {1} == {0, 1};
  }

  lemma CreationResumes(console: Console, c: nat)
    requires c in console.waiting && c < |console.begun| && console.begun[c].Creation?
    ensures var change := console.begun[c];
            React(console, Resume(c)) == Console(FinishCreation(console.db, change.eventId, change.event),
                                                 console.listed + [change.eventId], console.begun, console.waiting - {c})
  {
    hide FinishCreation;
  }

  lemma RunGoesOn(console: Console, acts: seq<Act>, n: nat)
    requires ProperRun(acts) && n < |acts|
    ensures Proper(acts[n]) && ConsoleAt(console, acts, n + 1) == React(ConsoleAt(console, acts, n), acts[n])
  {
    hide React, Proper;
    assert Proper(acts[n]);
  }

  lemma BothLand()
    requires ProperRun(COLLISION)
    ensures ConsoleAt(NO_EVENTS, COLLISION, 3) == BEGUN.(db := LANDED, listed := ["e"], waiting := {1})
    ensures ConsoleAt(NO_EVENTS, COLLISION, 4).db == FinishCreation(LANDED, "e", LATE)
    ensures ConsoleAt(NO_EVENTS, COLLISION, 4).listed == ["e", "e"]
  {
    hide FinishCreation, React, ConsoleAt, Proper;
    BothBegin();
    RunGoesOn(NO_EVENTS, COLLISION, 2);
    CreationResumes(BEGUN, 0);
    assert {0, 1} - {0} == {1};
    RunGoesOn(NO_EVENTS, COLLISION, 3);
    CreationResumes(BEGUN.(db := LANDED, listed := ["e"], waiting := {1}), 1);
  }

  lemma NewRecordShows(db: Db, eventId: string, event: Event)
    requires eventId !in db.events
    ensures FinishCreation(db, eventId, event).events == db.events[eventId := event]
  {
    hide EnsureTickets;
  }

  lemma LandedIsSound()
    ensures Inv(LANDED, []) && LANDED.events == map["e" := EARLY]
  {
    EmptyIsSound();
    hide Inv, FinishCreation;
    FinishCreationKeeps(EMPTY_DB, [], "e", EARLY);
    NewRecordShows(EMPTY_DB, "e", EARLY);
  }

  lemma LateCollides()
    ensures var r := FinishCreation(LANDED, "e", LATE);
            !Inv(r, []) && r.events == map["e" := EARLY] && TicketId("e", "d2", "z", "Z-01") in r.tickets
  {
    LandedIsSound();
    hide Inv, FinishCreation;
    LateDoesNotFit();
    hide FitsRecorded;
    CreationIsSoundIffRoom(LANDED, [], "e", LATE);
    StockFacts(LANDED, []);
    hide OrderOk, Placed;
    SecondRecordMints(LANDED, "e", LATE);
    LateHasASeat();
    hide SeatsForEvent;
    assert LATE.dates[..|LATE.dates|] == ["d2"];
    assert Regular(TicketId("e", "d2", "z", "Z-01"), "e", LATE.dates, SeatsForEvent(LATE), |LATE.dates|);
  }

  /**
   It can go wrong: two operators create the same event with different schedules.  Both find the id free, both store
   their posters, and the second leaves tickets on a date the event does not have.
   */
  lemma CreationsCanCollide()
    ensures ProperRun(COLLISION) && CatalogSound(NO_EVENTS, [])
    ensures CatalogSound(ConsoleAt(NO_EVENTS, COLLISION, 3), [])
    ensures var r := ConsoleAt(NO_EVENTS, COLLISION, 4);
            && !Inv(r.db, []) && r.listed == ["e", "e"]
            && TicketId("e", "d2", "z", "Z-01") in r.db.tickets && "e" in r.db.events && "d2" !in r.db.events["e"].dates
  {
    hide Inv, FinishCreation, ConsoleAt, Proper;
    EmptyIsProper();
    BothLand();
    LandedIsSound();
    LateCollides();
  }
}
