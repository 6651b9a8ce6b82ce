/**
 The sale server: one request after another on the one database.  Each is carried out in place by its handler, and
 what comes of it is the step of that handler on values; so everything proved about runs of steps holds of the server.
 */
module SaleServer {
  import opened Prelude
  import opened SaleTypes
  import Holds
  import Commerce
  import opened Inventory
  import opened SaleSteps
  import opened SaleInvariant
  import opened SaleHandlers
  import opened SaleOrders
  import opened SaleRuns
  import opened Database
  import HoldsEngine
  import CommerceEngine
  import InventoryEngine

  /** The handlers on holds and drafts. */
  method ServeSeats(db: Database, step: Step, now: int) returns (result: Result<nat, Error>)
    requires SeatStep(step) && WellFormed(step)
    modifies db
    ensures Reply(db.Snapshot(), result) == Apply(old(db.Snapshot()), step, now)
  {
    hide Holds.CreateSeatHold, Holds.RequireOwnHold, Holds.ExtendSeatHold, Holds.ReleaseSeatHold, Holds.CreateReservationDraft,
         Holds.RequireOwnDraft, Holds.CancelReservationDraft,
         Commerce.ListForResale, Commerce.JoinPool, Commerce.CancelResaleListing, Commerce.DrawPool, Commerce.PurchaseResale,
         Commerce.AdminCancelResalePool,
         Commerce.BuyPrimary, Commerce.BuyPrimaryGroup, Commerce.SubmitGroupBooking, Commerce.ApproveGroupBooking,
         Commerce.RejectGroupBooking, Commerce.AdmitAtGate,
         Commerce.UpdateTicketStatuses, Inventory.UpdateEventSale, Inventory.UpdateEventVenue, Inventory.CreateEvent;
    match step
    case CreateHold(u, dateId, ids) => result := HoldsEngine.CreateSeatHold(db, u, dateId, ids, now);
    case GetHold(u, h) => result := HoldsEngine.RequireOwnHold(db, u, h, now);
    case ExtendHoldStep(u, h) => result := HoldsEngine.ExtendSeatHold(db, u, h, now);
    case ReleaseHold(u, h) => result := HoldsEngine.ReleaseSeatHold(db, u, h, now);
    case CreateDraft(u, h) => result := HoldsEngine.CreateReservationDraft(db, u, h, now);
    case GetDraft(u, d) => result := HoldsEngine.RequireOwnDraft(db, u, d, now);
    case CancelDraft(u, d) => result := HoldsEngine.CancelReservationDraft(db, u, d, now);
  }

  /** The handlers on pools. */
  method ServeResale(db: Database, step: Step, now: int) returns (result: Result<nat, Error>)
    requires ResaleStep(step) && WellFormed(step)
    modifies db
    ensures Reply(db.Snapshot(), result) == Apply(old(db.Snapshot()), step, now)
  {
    hide Holds.CreateSeatHold, Holds.RequireOwnHold, Holds.ExtendSeatHold, Holds.ReleaseSeatHold, Holds.CreateReservationDraft,
         Holds.RequireOwnDraft, Holds.CancelReservationDraft,
         Commerce.ListForResale, Commerce.JoinPool, Commerce.CancelResaleListing, Commerce.DrawPool, Commerce.PurchaseResale,
         Commerce.AdminCancelResalePool,
         Commerce.BuyPrimary, Commerce.BuyPrimaryGroup, Commerce.SubmitGroupBooking, Commerce.ApproveGroupBooking,
         Commerce.RejectGroupBooking, Commerce.AdmitAtGate,
         Commerce.UpdateTicketStatuses, Inventory.UpdateEventSale, Inventory.UpdateEventVenue, Inventory.CreateEvent;
    match step
    case List(u, id, price) => result := CommerceEngine.ListForResale(db, u, id, price);
    case Join(u, p) => result := CommerceEngine.JoinPool(db, u, p);
    case CancelListing(u, p) => result := CommerceEngine.CancelResaleListing(db, u, p);
    case Draw(p, payment, seed) => result := CommerceEngine.DrawPool(db, p, payment, seed);
    case BuyResale(u, p, payment) => result := CommerceEngine.PurchaseResale(db, u, p, payment);
    case AdminCancelPool(p) => result := CommerceEngine.AdminCancelResalePool(db, p);
  }

  /** Purchases. */
  method ServePurchase(db: Database, step: Step, now: int) returns (result: Result<nat, Error>)
    requires step.Buy? && WellFormed(step)
    modifies db
    ensures Reply(db.Snapshot(), result) == Apply(old(db.Snapshot()), step, now)
  {
    hide Holds.CreateSeatHold, Holds.RequireOwnHold, Holds.ExtendSeatHold, Holds.ReleaseSeatHold, Holds.CreateReservationDraft,
         Holds.RequireOwnDraft, Holds.CancelReservationDraft,
         Commerce.ListForResale, Commerce.JoinPool, Commerce.CancelResaleListing, Commerce.DrawPool, Commerce.PurchaseResale,
         Commerce.AdminCancelResalePool,
         Commerce.BuyPrimary, Commerce.BuyPrimaryGroup, Commerce.SubmitGroupBooking, Commerce.ApproveGroupBooking,
         Commerce.RejectGroupBooking, Commerce.AdmitAtGate,
         Commerce.UpdateTicketStatuses, Inventory.UpdateEventSale, Inventory.UpdateEventVenue, Inventory.CreateEvent;
    if step.group {
      result := CommerceEngine.BuyPrimaryGroup(db, step.purchase, now);
    } else {
      result := CommerceEngine.BuyPrimary(db, step.purchase, now);
    }
  }

  /** Purchases, group bookings, the gate and the refund notices of the payment route. */
  method ServeSales(db: Database, step: Step, now: int) returns (result: Result<nat, Error>)
    requires SellingStep(step) && WellFormed(step)
    modifies db
    ensures Reply(db.Snapshot(), result) == Apply(old(db.Snapshot()), step, now)
  {
    hide Holds.CreateSeatHold, Holds.RequireOwnHold, Holds.ExtendSeatHold, Holds.ReleaseSeatHold, Holds.CreateReservationDraft,
         Holds.RequireOwnDraft, Holds.CancelReservationDraft,
         Commerce.ListForResale, Commerce.JoinPool, Commerce.CancelResaleListing, Commerce.DrawPool, Commerce.PurchaseResale,
         Commerce.AdminCancelResalePool,
         Commerce.BuyPrimary, Commerce.BuyPrimaryGroup, Commerce.SubmitGroupBooking, Commerce.ApproveGroupBooking,
         Commerce.RejectGroupBooking, Commerce.AdmitAtGate,
         Commerce.UpdateTicketStatuses, Inventory.UpdateEventSale, Inventory.UpdateEventVenue, Inventory.CreateEvent;
    match step
    case Buy(p, group) => result := ServePurchase(db, step, now);
    case SubmitGroup(e, d, z, n) => result := CommerceEngine.SubmitGroupBooking(db, e, d, z, n);
    case ApproveGroup(r, n) => result := CommerceEngine.ApproveGroupBooking(db, r, n);
    case RejectGroup(r) => result := CommerceEngine.RejectGroupBooking(db, r);
    case Admit(id) => result := CommerceEngine.AdmitAtGate(db, id);
    case RefundNeeded(u, ids, key, amount, reason) =>
      db.Append(ByUser(u), PaymentNeedsRefund(ids, key, amount, reason));
      return Ok(0);
  }

  /** The operator's console and the account handlers. */
  method ServeConsole(db: Database, step: Step, now: int) returns (result: Result<nat, Error>)
    requires OrderOk(db.tickets, db.order)
    requires WellFormed(step) && !SeatStep(step) && !ResaleStep(step) && !SellingStep(step)
    modifies db
    ensures Reply(db.Snapshot(), result) == Apply(old(db.Snapshot()), step, now)
  {
    hide Holds.CreateSeatHold, Holds.RequireOwnHold, Holds.ExtendSeatHold, Holds.ReleaseSeatHold, Holds.CreateReservationDraft,
         Holds.RequireOwnDraft, Holds.CancelReservationDraft,
         Commerce.ListForResale, Commerce.JoinPool, Commerce.CancelResaleListing, Commerce.DrawPool, Commerce.PurchaseResale,
         Commerce.AdminCancelResalePool,
         Commerce.BuyPrimary, Commerce.BuyPrimaryGroup, Commerce.SubmitGroupBooking, Commerce.ApproveGroupBooking,
         Commerce.RejectGroupBooking, Commerce.AdmitAtGate,
         Commerce.UpdateTicketStatuses, Inventory.UpdateEventSale, Inventory.UpdateEventVenue, Inventory.CreateEvent, OrderOk;
    match step
    case SetTicketStatuses(updates) => result := CommerceEngine.UpdateTicketStatuses(db, updates);
    case UpdateSale(e, input) => result := InventoryEngine.UpdateEventSale(db, e, input);
    case UpdateVenue(e, v) => result := InventoryEngine.UpdateEventVenue(db, e, v);
    case AddEvent(e, event) => result := InventoryEngine.CreateEvent(db, e, event);
    case AddUser(user) =>
      result := Ok(|db.users|);
      db.users := db.users + [user];
    case SetUserFlags(u, banned, verified) =>
      if u >= |db.users| { return Err(UserNotFound); }
      db.users := db.users[u := db.users[u].(banned := banned, verified := verified)];
      return Ok(u);
  }

  /** One request: the step of its handler, and the invariant of all of them. */
  method Serve(db: Database, step: Step, now: int, ghost opening: seq<int>) returns (result: Result<nat, Error>)
    requires Inv(db.Snapshot(), opening) && WellFormed(step)
    modifies db
    ensures Reply(db.Snapshot(), result) == Apply(old(db.Snapshot()), step, now)
    ensures Inv(db.Snapshot(), opening)
  {
    StepKeeps(db.Snapshot(), opening, step, now);
    StockIsOrdered(db.Snapshot(), opening);
    hide Inv, Apply, OrderOk, WellFormed;
    if SeatStep(step) {
      result := ServeSeats(db, step, now);
    } else if ResaleStep(step) {
      result := ServeResale(db, step, now);
    } else if SellingStep(step) {
      result := ServeSales(db, step, now);
    } else {
      result := ServeConsole(db, step, now);
    }
  }

  lemma StockIsOrdered(db: Db, opening: seq<int>)
    requires Inv(db, opening)
    ensures OrderOk(db.tickets, db.order)
  {
  }

  /** A day of requests leaves the database in the state the run of their steps leads to, and every answer is that of its step. */
  method ServeAll(db: Database, moves: seq<Move>, ghost opening: seq<int>) returns (results: seq<Result<nat, Error>>)
    requires Sound(db.Snapshot(), opening) && Legal(moves)
    modifies db
    ensures db.Snapshot() == After(old(db.Snapshot()), moves, |moves|) && Sound(db.Snapshot(), opening)
    ensures |results| == |moves|
    ensures forall k {:trigger results[k]} :: 0 <= k < |moves| ==>
              WellFormed(moves[k].step)
              && results[k] == Apply(After(old(db.Snapshot()), moves, k), moves[k].step, moves[k].now).result
  {
    hide Inv, Apply, OneOrderPerKey;
    results := [];
    for i := 0 to |moves|
      invariant db.Snapshot() == After(old(db.Snapshot()), moves, i) && Inv(db.Snapshot(), opening)
      invariant |results| == i
      invariant forall k {:trigger results[k]} :: 0 <= k < i ==>
                  WellFormed(moves[k].step)
                  && results[k] == Apply(After(old(db.Snapshot()), moves, k), moves[k].step, moves[k].now).result
    {
      assert WellFormed(moves[i].step);
      var result := Serve(db, moves[i].step, moves[i].now, opening);
      results := results + [result];
    }
    EveryStateSound(old(db.Snapshot()), opening, moves, |moves|);
  }
}
