/**
 When the operator's and the gate's remaining handlers answer, and what they leave, told from the records: status batches,
 group bookings, accounts, admission.
 */
module ConsoleAnswers {
  import opened Prelude
  import opened SaleTypes
  import opened Commerce
  import opened Inventory
  import opened SaleSteps
  import opened SaleInvariant
  import opened SaleSales
  import opened SaleRoundTrips
  import opened HoldAnswers

  // -------------------------------------------------------------------------------------- status batches

  /** A row that asks for ON_SALE or ADMIN_HOLD, of a ticket that is one of these and nobody's. */
  predicate RowAllowed(tickets: Tickets, row: (TicketId, TicketStatus)) {
    && (row.1 == OnSale || row.1 == AdminHold) && row.0 in tickets
    && tickets[row.0].ownerId.None? && (tickets[row.0].status == OnSale || tickets[row.0].status == AdminHold)
  }

  lemma {:induction false} RowsChecked(db: Db, updates: seq<(TicketId, TicketStatus)>)
    ensures CheckStatusUpdates(db, updates).None? <==> forall u :: u in updates ==> RowAllowed(db.tickets, u)
  {
    if updates != [] {
      RowsChecked(db, updates[1..]);
      assert updates[0] in updates && forall u :: u in updates[1..] ==> u in updates;
      assert forall u :: u in updates ==> u == updates[0] || u in updates[1..];
    }
  }

  lemma {:induction false} RowsLogged(db: Db, updates: seq<(TicketId, TicketStatus)>, n: nat)
    requires n <= |updates| && forall u :: u in updates ==> u.0 in db.tickets
    ensures var r := SetStatuses(db, updates, n);
            && r == db.(tickets := r.tickets, ledger := r.ledger) && r.tickets.Keys == db.tickets.Keys
            && r.ledger == db.ledger + seq(n, i requires 0 <= i < n => LedgerEntry(ByAdmin, TicketStatusUpdated(updates[i].0, updates[i].1)))
  {
    if n > 0 {
      RowsLogged(db, updates, n - 1);
      assert updates[n - 1] in updates;
    }
  }

  /** A batch is carried out exactly if it has rows and all are allowed; each row is logged, and only listed tickets move. */
  lemma BatchAnswers(db: Db, updates: seq<(TicketId, TicketStatus)>)
    ensures var r := UpdateTicketStatuses(db, updates);
            && (r.result.Ok? <==> updates != [] && forall u :: u in updates ==> RowAllowed(db.tickets, u))
            && (r.result.Err? ==> r.db == db)
            && (r.result.Ok? ==>
                  && r.result == Ok(|updates|)
                  && r.db == db.(tickets := r.db.tickets, ledger := r.db.ledger) && r.db.tickets.Keys == db.tickets.Keys
                  && r.db.ledger == db.ledger + seq(|updates|, i requires 0 <= i < |updates| =>
                                                   LedgerEntry(ByAdmin, TicketStatusUpdated(updates[i].0, updates[i].1)))
                  && forall id :: id in db.tickets ==>
                       r.db.tickets[id] == if LastRow(updates, id).Some? then db.tickets[id].(status := LastRow(updates, id).value)
                                           else db.tickets[id])
  {
    RowsChecked(db, updates);
    var r := UpdateTicketStatuses(db, updates);
    if r.result.Ok? {
      CheckedUpdatesExist(db, updates);
      RowsLogged(db, updates, |updates|);
      forall id | id in db.tickets
        ensures r.db.tickets[id] == if LastRow(updates, id).Some? then db.tickets[id].(status := LastRow(updates, id).value) else db.tickets[id]
      {
        BatchIsExact(db, updates, id);
      }
    }
    hide SetStatuses, CheckStatusUpdates, LastRow;
  }

  // ------------------------------------------------------------------------------------- group bookings

  /** An open seat of the requested performance and zone. */
  predicate Asked(db: Db, request: GroupRequest, id: TicketId) {
    id in db.tickets && db.tickets[id].status == OnSale
    && id.eventId == request.eventId && id.dateId == request.dateId && id.zoneId == request.zoneId
  }

  /** Those among these, in their order. */
  function AskedAmong(db: Db, request: GroupRequest, order: seq<TicketId>): seq<TicketId> {
    if order == [] then []
    else
      var last := order[|order| - 1];
      AskedAmong(db, request, order[..|order| - 1]) + (if Asked(db, request, last) then [last] else [])
  }

  function Wanted(request: GroupRequest, agreed: Option<int>): int {
    if agreed.Some? then agreed.value else request.headcount
  }

  lemma {:induction false} AvailableAppend(tickets: Tickets, a: seq<TicketId>, b: seq<TicketId>, r: GroupRequest)
    ensures Available(tickets, a + b, r) == Available(tickets, a, r) + Available(tickets, b, r)
  {
    if a == [] {
      assert a + b == b;
    } else {
      assert (a + b)[1..] == a[1..] + b;
      AvailableAppend(tickets, a[1..], b, r);
    }
  }

  lemma {:induction false} AvailableAsTold(db: Db, order: seq<TicketId>, r: GroupRequest)
    ensures Available(db.tickets, order, r) == AskedAmong(db, r, order)
  {
    if order != [] {
      var init, last := order[..|order| - 1], order[|order| - 1];
      assert order == init + [last];
      AvailableAppend(db.tickets, init, [last], r);
      AvailableAsTold(db, init, r);
      assert [last][1..] == [];
    }
  }

  /** The front of the list is what there is in some front of the array. */
  lemma {:induction false} FrontAsTold(db: Db, order: seq<TicketId>, r: GroupRequest, count: nat) returns (n: nat)
    requires count <= |AskedAmong(db, r, order)|
    ensures n <= |order| && AskedAmong(db, r, order[..n]) == AskedAmong(db, r, order)[..count]
  {
    if count == |AskedAmong(db, r, order)| {
      n := |order|;
      assert order[..n] == order;
    } else {
      var init := order[..|order| - 1];
      n := FrontAsTold(db, init, r, count);
      assert init[..n] == order[..n];
    }
  }

  /** How many of the seats carry no face value of their own. */
  function Unpriced(tickets: Tickets, ids: seq<TicketId>): nat {
    if ids == [] then 0
    else
      var last := ids[|ids| - 1];
      Unpriced(tickets, ids[..|ids| - 1]) + (if last in tickets && tickets[last].faceValue != 0 then 0 else 1)
  }

  lemma {:induction false} InvoiceAsTold(tickets: Tickets, ids: seq<TicketId>, zoneFace: int)
    ensures SumFaces(tickets, ids, zoneFace) == Faces(tickets, ids) + zoneFace * Unpriced(tickets, ids)
  {
    if ids != [] { InvoiceAsTold(tickets, ids[..|ids| - 1], zoneFace); }
  }

  /**
   What an approval leaves: a new account that owns the seats as an institution's, one transaction with the invoice, the
   face values and the zone's own for a seat without one.
   */
  ghost predicate HandedOver(db: Db, r: Db, q: RequestId, ids: seq<TicketId>, zone: Zone)
    requires q < |db.requests|
  {
    && r == db.(users := db.users + [User(0, false, false)], tickets := r.tickets,
                txs := db.txs + [GroupBooking(ids, |db.users|, Faces(db.tickets, ids) + zone.faceValue * Unpriced(db.tickets, ids))],
                requests := db.requests[q := db.requests[q].(status := Approved)],
                ledger := db.ledger + [LedgerEntry(ByAdmin, GroupBookingApproved(q, ids, |db.users|))])
    && r.tickets.Keys == db.tickets.Keys
    && forall id :: id in db.tickets ==>
         r.tickets[id] == if id in ids then db.tickets[id].(ownerId := Some(|db.users|), status := Owned, institutional := true)
                          else db.tickets[id]
  }

  /**
   A request is approved exactly if it is undecided, the agreed count, where there is one, is 1 to 5000, its event can be
   booked with its date and zone, and as many seats are open; it gets the first of them in the ticket array.
   */
  lemma ApproveAnswers(db: Db, q: RequestId, agreed: Option<int>) returns (n: nat, zone: Zone)
    ensures var r := ApproveGroupBooking(db, q, agreed);
            && (r.result == Err(RequestNotFound) <==> q >= |db.requests|)
            && (r.result == Err(AlreadyReviewed) <==> q < |db.requests| && db.requests[q].status != Pending)
            && (r.result == Ok(q) <==>
                  && q < |db.requests| && db.requests[q].status == Pending && (agreed.Some? ==> 1 <= agreed.value <= 5000)
                  && var request := db.requests[q];
                     && request.eventId in db.events && db.events[request.eventId].bookable
                     && request.dateId in db.events[request.eventId].dates && HasZone(db.events[request.eventId].zones, request.zoneId)
                     && Wanted(request, agreed) <= |AskedAmong(db, request, db.order)|)
            && (r.result.Err? ==> r.db == db)
            && (r.result.Ok? ==>
                  && r.result == Ok(q) && q < |db.requests| && n <= |db.order|
                  && var request, ids := db.requests[q], AskedAmong(db, db.requests[q], db.order[..n]);
                     && |ids| == Wanted(request, agreed) && zone in db.events[request.eventId].zones && zone.id == request.zoneId
                     && HandedOver(db, r.db, q, ids, zone))
  {
    n, zone := 0, Zone("", "", 0, 0, 0, None);
    if q < |db.requests| {
      var request := db.requests[q];
      AvailableAsTold(db, db.order, request);
      if request.eventId in db.events { FindZoneFinds(db.events[request.eventId].zones, request.zoneId); }
      if ApproveGroupBooking(db, q, agreed).result.Ok? {
        n := FrontAsTold(db, db.order, request, Wanted(request, agreed));
        zone := FindZone(db.events[request.eventId].zones, request.zoneId).value;
        HandOver(db, q, AskedAmong(db, request, db.order[..n]), zone);
      }
    }
    hide Available, AssignGroup, AskedAmong, HandedOver, FindZone;
  }

  lemma HandOver(db: Db, q: RequestId, ids: seq<TicketId>, zone: Zone)
    requires q < |db.requests| && db.requests[q].eventId in db.events
    requires FindZone(db.events[db.requests[q].eventId].zones, db.requests[q].zoneId) == Some(zone)
    ensures HandedOver(db, AssignGroup(db, q, ids), q, ids, zone)
  {
    InvoiceAsTold(db.tickets, ids, zone.faceValue);
    hide SumFaces, Faces, Unpriced;
  }

  /** A request is rejected exactly if it is undecided. */
  lemma RejectAnswers(db: Db, q: RequestId)
    ensures var r := RejectGroupBooking(db, q);
            && (r.result == Ok(q) <==> q < |db.requests| && db.requests[q].status == Pending)
            && (r.result == Err(RequestNotFound) <==> q >= |db.requests|)
            && (r.result.Err? ==> r.db == db)
            && (r.result.Ok? ==>
                  r.result == Ok(q) && r.db == db.(requests := db.requests[q := db.requests[q].(status := Rejected)],
                                                   ledger := db.ledger + [LedgerEntry(ByAdmin, GroupBookingRejected(q))]))
  {
  }

  // ----------------------------------------------------------------------------------- gate and accounts

  /** The mobile gate lets in an OWNED ticket, which is then ADMITTED, and logs its use in its owner's name. */
  lemma AdmitAnswers(db: Db, opening: seq<int>, id: TicketId)
    requires Inv(db, opening)
    ensures var r := AdmitAtGate(db, id);
            && (r.result.Ok? <==> id in db.tickets && db.tickets[id].status == Owned)
            && (r.result.Err? ==> r.db == db)
            && (r.result.Ok? ==>
                  && db.tickets[id].ownerId.Some?
                  && r.db == db.(tickets := db.tickets[id := db.tickets[id].(status := Admitted)],
                                 ledger := db.ledger + [LedgerEntry(ByUser(db.tickets[id].ownerId.value), MobileQrUsed(id))]))
  {
  }
}
