/**
 A sale update that comes with a poster (backend/admin.js): the checks run, the upload is awaited while any other
 handler may run, and then the update is applied without checking again.
 */
module PosterUpload {
  import opened Prelude
  import opened SaleTypes
  import opened Holds
  import opened Commerce
  import DoublePrice
  import opened Inventory
  import opened SaleSteps
  import opened SaleInvariant
  import opened SaleInventory
  import opened SaleResale
  import opened SaleHandlers
  import opened PaymentRoute

  /** The checks made before the upload. */
  function CheckUpdate(db: Db, eventId: string, input: SaleInput): Option<Error> {
    var r := UpdateEventSale(db, eventId, input).result;
    if r.Err? then Some(r.error) else None
  }

  /** What is applied after it, to whatever the database has become. */
  function ApplyUpdate(db: Db, eventId: string, input: SaleInput): Db
    requires eventId in db.events
  {
    ApplySale(db, eventId, NextEvent(db.events[eventId], input))
  }

  /** No transactional ticket of the event, as it is now, sits on a zone or date the update takes away. */
  predicate StillUsable(db: Db, eventId: string, input: SaleInput)
    requires eventId in db.events
  {
    var next := NextEvent(db.events[eventId], input);
    CheckInventoryUse(db.tickets, eventId, next.zones, next.dates).None?
  }

  /**
   Applying the update after the upload keeps the database sound if and only if the inventory check would still pass
   at that moment; the check made before the upload does not decide it.
   */
  lemma SafeAfterUploadIffStillUsable(db: Db, opening: seq<int>, eventId: string, input: SaleInput)
    requires Inv(db, opening) && eventId in db.events && (input.zones.Some? ==> ZonesNormalized(input.zones.value))
    ensures Inv(ApplyUpdate(db, eventId, input), opening) <==> StillUsable(db, eventId, input)
  {
    hide Inv, RegenerateEvent, CheckInventoryUse, ZonesNormalized, Placed, OrderOk;
    var next := NextEvent(db.events[eventId], input);
    ZonesStayNormalized(db, opening, eventId, input);
    StockFacts(db, opening);
    CheckIsExact(db, eventId, next, true);
    var regenerated := RegenerateEvent(db, eventId, next, true);
    if StillUsable(db, eventId, input) {
      RegenerateKeeps(db, opening, eventId, next, true);
      InvIgnoresLedger(regenerated, ApplyUpdate(db, eventId, input).ledger, opening);
    } else if Inv(ApplyUpdate(db, eventId, input), opening) {
      StockFacts(ApplyUpdate(db, eventId, input), opening);
      assert false;
    }
  }

  lemma ZonesStayNormalized(db: Db, opening: seq<int>, eventId: string, input: SaleInput)
    requires Inv(db, opening) && eventId in db.events && (input.zones.Some? ==> ZonesNormalized(input.zones.value))
    ensures ZonesNormalized(NextEvent(db.events[eventId], input).zones)
  {
  }

  lemma StockFacts(db: Db, opening: seq<int>)
    requires Inv(db, opening)
    ensures OrderOk(db.tickets, db.order) && Placed(db.tickets, db.events)
  {
  }

  // -------------------------------------------------------------------------- a ticket left stranded

  const MOVED_DATES := SaleInput("v", true, None, Some(["d2"]), "")

  const SHOP_SALE := Primary(SHOP_SEAT, 0, 50000, None, None, 0)

  const SHOP_SOLD := Allocate(SHOP_DB, SHOP_SEAT, Claim(None, None), SHOP_SALE)

  lemma SeatIsBought()
    ensures BuyPrimary(SHOP_DB, SHOP_REQUEST.(key := None), 0) == Reply(SHOP_SOLD, Ok(0))
  {
    assert FindZone([SHOP_ZONE], "z") == Some(SHOP_ZONE);
  }

  lemma MoveWasAllowed()
    ensures CheckUpdate(SHOP_DB, "e", MOVED_DATES).None?
  {
    hide ApplySale;
    assert Candidates([SHOP_ZONE][1..]) == Some(0);
    assert Candidates([SHOP_ZONE]) == Some(1);
    assert FindZone([SHOP_ZONE], "z") == Some(SHOP_ZONE);
  }

  /**
   It can go wrong: the only seat of a performance is open when the update that drops the performance is checked, is
   bought while the poster uploads, and is left on a date that no longer exists.
   */
  lemma UploadCanStrandATicket()
    ensures Inv(SHOP_DB, [0]) && CheckUpdate(SHOP_DB, "e", MOVED_DATES).None?
    ensures var sold := BuyPrimary(SHOP_DB, SHOP_REQUEST.(key := None), 0).db;
            Inv(sold, [0]) && "e" in sold.events && !Inv(ApplyUpdate(sold, "e", MOVED_DATES), [0])
  {
    hide Inv, ApplyUpdate, StillUsable, CheckUpdate, BuyPrimary, PayOk, KeysCaptured;
    ShopIsSound();
    MoveWasAllowed();
    SeatIsBought();
    BuyPrimaryKeeps(SHOP_DB, [0], SHOP_REQUEST.(key := None), 0);
    SoldSeatBlocks();
    SafeAfterUploadIffStillUsable(SHOP_SOLD, [0], "e", MOVED_DATES);
  }

  lemma SoldSeatBlocks()
    ensures "e" in SHOP_SOLD.events && !StillUsable(SHOP_SOLD, "e", MOVED_DATES)
  {
    assert SHOP_SEAT in SHOP_SOLD.tickets && Transactional(SHOP_SOLD.tickets[SHOP_SEAT]);
    assert "d" != "d2";
  }

  /** What a stranded ticket costs: its resale match credits the seller and moves the ticket, and then throws. */
  lemma StrandedMatchStopsHalfway(db: Db, p: PoolId, buyerId: UserId, payment: Option<PaymentMethod>)
    requires p < |db.pools| && buyerId < |db.users| && db.users[buyerId].verified && payment.Some?
    requires db.pools[p].ticketId in db.tickets && FindUser(db.users, db.pools[p].sellerId).Ok?
    requires db.pools[p].ticketId.eventId in db.events
    requires db.pools[p].ticketId.dateId !in db.events[db.pools[p].ticketId.eventId].dates
    ensures var r := CompleteResaleMatch(db, p, buyerId, payment);
            && r.result == Err(EventDateNotFound)
            && r.db.users[db.pools[p].sellerId].balance == db.users[db.pools[p].sellerId].balance + db.pools[p].price
            && r.db.tickets[db.pools[p].ticketId].ownerId == Some(buyerId)
            && r.db.pools == db.pools && r.db.txs == db.txs && r.db.ledger == db.ledger
  {
  }

  const MOVED := ApplyUpdate(SHOP_SOLD, "e", MOVED_DATES)

  lemma MovedShop()
    ensures SHOP_SEAT in MOVED.tickets && MOVED.tickets[SHOP_SEAT] == SHOP_SOLD.tickets[SHOP_SEAT]
    ensures "e" in MOVED.events && MOVED.events["e"].dates == ["d2"]
    ensures MOVED.users == SHOP_SOLD.users && MOVED.pools == [] && MOVED.txs == SHOP_SOLD.txs
  {
    var next := NextEvent(SHOP_SOLD.events["e"], MOVED_DATES);
    assert OrderOk(SHOP_SOLD.tickets, SHOP_SOLD.order);
    hide RegenerateEvent, KeysExact, PricesFollow, OnlyOpenChanges, SeatsOk;
    EventRegenerates(SHOP_SOLD, "e", next, true);
    assert SHOP_SEAT in SHOP_SOLD.tickets && Transactional(SHOP_SOLD.tickets[SHOP_SEAT]);
  }

  lemma SoldTicket()
    ensures var t := SHOP_SOLD.tickets[SHOP_SEAT];
            && t.ownerId == Some(0) && t.status == Owned && !t.institutional && t.transferCount == 0 && t.maxTransferCount == 1
            && t.minPrice == 25000 && t.maxPrice >= 25000
  {
    DoublePrice.CapIsExactOrOneMore(50000, 10);
    hide DoublePrice.PriceCap;
  }

  /**
   The stranded ticket's story goes on: its buyer lists it at half its price, a second account buys it directly, and
   the server answers that the date was not found, having paid the seller and handed the ticket over; the pool is still
   open and no transaction records the sale.
   */
  lemma StrandedTicketIsHalfSold()
    ensures var joined := MOVED.(users := MOVED.users + [User(0, false, true)]);
            var listed := ListForResale(joined, 0, SHOP_SEAT, Some(25000));
            var sold := PurchaseResale(listed.db, 1, 0, Some(CreditCard));
            && listed.result == Ok(0) && sold.result == Err(EventDateNotFound)
            && |sold.db.users| == 2 && sold.db.users[0].balance == MOVED.users[0].balance + 25000
            && SHOP_SEAT in sold.db.tickets && sold.db.tickets[SHOP_SEAT].ownerId == Some(1)
            && |sold.db.pools| == 1 && sold.db.pools[0].status == Open && sold.db.txs == MOVED.txs
  {
    MovedShop();
    SoldTicket();
    hide ApplyUpdate;
    var joined := MOVED.(users := MOVED.users + [User(0, false, true)]);
    var listed := ListForResale(joined, 0, SHOP_SEAT, Some(25000));
    var bidding := Log(listed.db.(pools := AddBuyer(listed.db.pools, 0, 1)), ByUser(1), PoolJoined(0));
    StrandedMatchStopsHalfway(bidding, 0, 1, Some(CreditCard));
    hide CompleteResaleMatch;
  }
}
