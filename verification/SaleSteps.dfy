/**
 Every handler that writes the sale database, as one step relation; one clock reading per step.  A handler that awaits
 something runs to its end here; what other handlers may do meanwhile is in `PaymentRoute` and `EventCreation`.
 */
module SaleSteps {
  import opened Prelude
  import opened SaleTypes
  import opened Holds
  import opened Commerce
  import opened Inventory

  datatype Step =
    | CreateHold(userId: UserId, dateId: string, ids: seq<TicketId>)
    | GetHold(userId: UserId, h: HoldId)
    | ExtendHoldStep(userId: UserId, h: HoldId)
    | ReleaseHold(userId: UserId, h: HoldId)
    | CreateDraft(userId: UserId, h: HoldId)
    | GetDraft(userId: UserId, d: DraftId)
    | CancelDraft(userId: UserId, d: DraftId)
    | Buy(purchase: Purchase, group: bool)
    | List(sellerId: UserId, ticketId: TicketId, price: Option<int>)
    | Join(buyerId: UserId, p: PoolId)
    | CancelListing(sellerId: UserId, p: PoolId)
    | Draw(p: PoolId, payment: Option<PaymentMethod>, seed: nat)
    | BuyResale(buyerId: UserId, p: PoolId, payment: Option<PaymentMethod>)
    | AdminCancelPool(p: PoolId)
    | SetTicketStatuses(updates: seq<(TicketId, TicketStatus)>)
    | SubmitGroup(eventId: string, dateId: string, zoneId: string, headcount: int)
    | ApproveGroup(r: RequestId, assignedCount: Option<int>)
    | RejectGroup(r: RequestId)
    | UpdateSale(eventId: string, input: SaleInput)
    | UpdateVenue(eventId: string, venueId: string)
    | AddEvent(eventId: string, event: Event)
    | Admit(ticketId: TicketId)
    | AddUser(user: User)
    | SetUserFlags(userId: UserId, banned: bool, verified: bool)
    | RefundNeeded(userId: UserId, ids: seq<TicketId>, tossKey: TossKey, amount: int, reason: Error)

  /** The zones a normalized payload yields: distinct ids, one transfer per ticket (backend/admin-event-content.js). */
  ghost predicate ZonesNormalized(zones: seq<Zone>) {
    && (forall i :: 0 <= i < |zones| ==> zones[i].maxTransferCount == 1)
    && (forall i, j :: 0 <= i < j < |zones| ==> zones[i].id != zones[j].id)
  }

  /** An operator bans, reinstates or verifies an account. */
  function WithFlags(db: Db, u: UserId, banned: bool, verified: bool): Reply {
    if u >= |db.users| then Reply(db, Err(UserNotFound))
    else Reply(db.(users := db.users[u := db.users[u].(banned := banned, verified := verified)]), Ok(u))
  }

  /** What the callers of the handlers guarantee: normalized event content, empty new accounts, a single id in a single purchase. */
  ghost predicate WellFormed(step: Step) {
    match step
    case Buy(p, group) => group || |p.ticketIds| == 1
    case UpdateSale(_, input) => input.zones.Some? ==> ZonesNormalized(input.zones.value)
    case AddEvent(_, event) => ZonesNormalized(event.zones)
    case AddUser(user) => user.balance == 0
    case _ => true
  }

  ghost function Apply(db: Db, step: Step, now: int): Reply
    requires WellFormed(step)
  {
    match step
    case CreateHold(u, dateId, ids) => CreateSeatHold(db, u, dateId, ids, now)
    case GetHold(u, h) => RequireOwnHold(db, u, h, now)
    case ExtendHoldStep(u, h) => ExtendSeatHold(db, u, h, now)
    case ReleaseHold(u, h) => ReleaseSeatHold(db, u, h, now)
    case CreateDraft(u, h) => CreateReservationDraft(db, u, h, now)
    case GetDraft(u, d) => RequireOwnDraft(db, u, d, now)
    case CancelDraft(u, d) => CancelReservationDraft(db, u, d, now)
    case Buy(p, group) => if group then BuyPrimaryGroup(db, p, now) else BuyPrimary(db, p, now)
    case List(u, id, price) => ListForResale(db, u, id, price)
    case Join(u, p) => JoinPool(db, u, p)
    case CancelListing(u, p) => CancelResaleListing(db, u, p)
    case Draw(p, payment, seed) => DrawPool(db, p, payment, seed)
    case BuyResale(u, p, payment) => PurchaseResale(db, u, p, payment)
    case AdminCancelPool(p) => AdminCancelResalePool(db, p)
    case SetTicketStatuses(updates) => UpdateTicketStatuses(db, updates)
    case SubmitGroup(e, d, z, n) => SubmitGroupBooking(db, e, d, z, n)
    case ApproveGroup(r, n) => ApproveGroupBooking(db, r, n)
    case RejectGroup(r) => RejectGroupBooking(db, r)
    case UpdateSale(e, input) => UpdateEventSale(db, e, input)
    case UpdateVenue(e, v) => UpdateEventVenue(db, e, v)
    case AddEvent(e, event) => CreateEvent(db, e, event)
    case Admit(id) => AdmitAtGate(db, id)
    case AddUser(user) => Reply(db.(users := db.users + [user]), Ok(|db.users|))
    case SetUserFlags(u, banned, verified) => WithFlags(db, u, banned, verified)
    case RefundNeeded(u, ids, key, amount, reason) =>
      Reply(Log(db, ByUser(u), PaymentNeedsRefund(ids, key, amount, reason)), Ok(0))
  }

  // -------------------------------------------------------------------------------------- counting

  function PoolCount(pools: seq<Pool>, id: TicketId, status: PoolStatus): nat {
    if pools == [] then 0
    else
      var last := pools[|pools| - 1];
      PoolCount(pools[..|pools| - 1], id, status) + (if last.ticketId == id && last.status == status then 1 else 0)
  }

  /** Seats handed out for the first time by one transaction. */
  function AllocatedBy(tx: Transaction, id: TicketId): nat {
    match tx
    case Primary(t, _, _, _, _, _) => if t == id then 1 else 0
    case GroupBooking(ids, _, _) => Occurrences(ids, id)
    case _ => 0
  }

  function Occurrences(ids: seq<TicketId>, id: TicketId): nat {
    if ids == [] then 0 else Occurrences(ids[..|ids| - 1], id) + (if ids[|ids| - 1] == id then 1 else 0)
  }

  /** How often a ticket has been allocated, over all primary sales and group bookings. */
  function Allocations(txs: seq<Transaction>, id: TicketId): nat {
    if txs == [] then 0 else Allocations(txs[..|txs| - 1], id) + AllocatedBy(txs[|txs| - 1], id)
  }

  function TransferTo(tx: Transaction, userId: UserId): int {
    match tx
    case Resale(_, _, s, _, amount, _) => if s == userId then amount else 0
    case Refund(_, _, s, _, amount) => if s == userId then amount else 0
    case _ => 0
  }

  /** Sum of `transferAmount` over the transactions naming the user as seller. */
  function Transfers(txs: seq<Transaction>, userId: UserId): int {
    if txs == [] then 0 else Transfers(txs[..|txs| - 1], userId) + TransferTo(txs[|txs| - 1], userId)
  }

  /** One reduction step of `paymentSummary`: a refund counts against the gross total. */
  function Gross(tx: Transaction): int {
    match tx
    case Primary(_, _, amount, _, _, _) => amount
    case GroupBooking(_, _, amount) => amount
    case Resale(_, _, _, amount, _, _) => amount
    case Refund(_, _, _, amount, _) => -amount
  }

  function Settlement(tx: Transaction): int {
    match tx
    case Resale(_, _, _, _, amount, _) => amount
    case Refund(_, _, _, _, amount) => amount
    case _ => 0
  }

  function Fee(tx: Transaction): int {
    if tx.Resale? then tx.platformFee else 0
  }

  datatype Summary = Summary(count: nat, totalAmount: int, totalFees: int, totalSettlements: int)

  function PaymentSummary(txs: seq<Transaction>): Summary {
    if txs == [] then Summary(0, 0, 0, 0)
    else
      var s := PaymentSummary(txs[..|txs| - 1]);
      var tx := txs[|txs| - 1];
      Summary(s.count + 1, s.totalAmount + Gross(tx), s.totalFees + Fee(tx), s.totalSettlements + Settlement(tx))
  }

  lemma {:induction false} PoolCountUpdate(pools: seq<Pool>, p: PoolId, pool: Pool, id: TicketId, status: PoolStatus)
    requires p < |pools|
    ensures PoolCount(pools[p := pool], id, status) == PoolCount(pools, id, status)
            - (if pools[p].ticketId == id && pools[p].status == status then 1 else 0)
            + (if pool.ticketId == id && pool.status == status then 1 else 0)
  {
    var last := |pools| - 1;
    if p == last {
      assert pools[p := pool][..last] == pools[..last];
    } else {
      assert pools[p := pool][..last] == pools[..last][p := pool];
      PoolCountUpdate(pools[..last], p, pool, id, status);
    }
  }

  lemma {:induction false} PoolCountAppend(pools: seq<Pool>, pool: Pool, id: TicketId, status: PoolStatus)
    ensures PoolCount(pools + [pool], id, status)
            == PoolCount(pools, id, status) + (if pool.ticketId == id && pool.status == status then 1 else 0)
  {
    assert (pools + [pool])[..|pools|] == pools;
  }

  lemma {:induction false} PoolCountPositive(pools: seq<Pool>, p: PoolId)
    requires p < |pools|
    ensures PoolCount(pools, pools[p].ticketId, pools[p].status) > 0
  {
    if p < |pools| - 1 {
      assert pools[..|pools| - 1][p] == pools[p];
      PoolCountPositive(pools[..|pools| - 1], p);
    }
  }

  lemma {:induction false} PoolCountWitness(pools: seq<Pool>, id: TicketId, status: PoolStatus) returns (p: PoolId)
    requires PoolCount(pools, id, status) > 0
    ensures p < |pools| && pools[p].ticketId == id && pools[p].status == status
  {
    var last := |pools| - 1;
    if pools[last].ticketId == id && pools[last].status == status { p := last; }
    else { p := PoolCountWitness(pools[..last], id, status); }
  }

  lemma {:induction false} PoolCountUnique(pools: seq<Pool>, p: PoolId, q: PoolId)
    requires p < q < |pools| && pools[p].ticketId == pools[q].ticketId && pools[p].status == pools[q].status
    ensures PoolCount(pools, pools[p].ticketId, pools[p].status) >= 2
  {
    var last := |pools| - 1;
    if q == last {
      assert pools[..last][p] == pools[p];
      PoolCountPositive(pools[..last], p);
    } else {
      assert pools[..last][p] == pools[p] && pools[..last][q] == pools[q];
      PoolCountUnique(pools[..last], p, q);
    }
  }

  lemma {:induction false} PoolCountNone(pools: seq<Pool>, id: TicketId, status: PoolStatus)
    requires forall p :: 0 <= p < |pools| ==> pools[p].ticketId != id
    ensures PoolCount(pools, id, status) == 0
  {
    if pools != [] { PoolCountNone(pools[..|pools| - 1], id, status); }
  }

  lemma {:induction false} OccurrencesOfDistinct(ids: seq<TicketId>, id: TicketId)
    requires NoDuplicates(ids)
    ensures Occurrences(ids, id) == if id in ids then 1 else 0
  {
    if ids != [] {
      OccurrencesOfDistinct(ids[..|ids| - 1], id);
      assert ids == ids[..|ids| - 1] + [ids[|ids| - 1]];
    }
  }

  lemma AppendTx(txs: seq<Transaction>, tx: Transaction)
    ensures (txs + [tx])[..|txs + [tx]| - 1] == txs
    ensures forall id :: Allocations(txs + [tx], id) == Allocations(txs, id) + AllocatedBy(tx, id)
    ensures forall u :: Transfers(txs + [tx], u) == Transfers(txs, u) + TransferTo(tx, u)
  {
    assert (txs + [tx])[..|txs + [tx]| - 1] == txs;
  }
}
