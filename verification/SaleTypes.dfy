/**
 The records of the sale database.  Arrays the server only ever pushes to are sequences, and the id a
 record is given when it is pushed is its position: a fresh id and nothing more.  Tickets can also be
 filtered out of their array, so they are kept as the array of ids (`order`) and the record behind each
 id; a ticket id is the tuple `stableId` hashes, that is, the seat's key.
 */
module SaleTypes {
  import opened Prelude

  type UserId = nat
  type HoldId = nat
  type DraftId = nat
  type PoolId = nat
  type RequestId = nat
  type TossKey = string

  datatype TicketId = TicketId(eventId: string, dateId: string, zoneId: string, seat: string)

  datatype TicketStatus = OnSale | Held | Reserved | Owned | InResalePool | Admitted | AdminHold

  datatype Ticket = Ticket(
    ownerId: Option<UserId>,
    status: TicketStatus,
    faceValue: int,
    minPrice: int,
    maxPrice: int,
    transferCount: int,
    maxTransferCount: int,
    heldBy: Option<HoldId>,
    holdExpiresAt: Option<int>,
    reservationId: Option<DraftId>,
    reservationExpiresAt: Option<int>,
    institutional: bool)

  type Tickets = map<TicketId, Ticket>

  datatype Zone = Zone(id: string, name: string, faceValue: int, resalePercent: nat, maxTransferCount: int, seatCount: Option<int>)

  datatype Event = Event(venueId: string, zones: seq<Zone>, dates: seq<string>, bookable: bool)

  datatype User = User(balance: int, banned: bool, verified: bool)

  datatype HoldStatus = HoldActive | HoldExpired | HoldReleased | HoldConverted

  datatype Hold = Hold(
    userId: UserId, dateId: string, ticketIds: seq<TicketId>, status: HoldStatus,
    expiresAt: int, extensionsUsed: nat, createdAt: int)

  datatype DraftStatus = PendingPayment | DraftExpired | DraftCancelled | DraftConfirmed

  datatype Draft = Draft(
    userId: UserId, holdId: HoldId, dateId: string, ticketIds: seq<TicketId>, status: DraftStatus,
    expiresAt: int, total: int)

  datatype PoolStatus = Open | Matched | Canceled

  datatype Pool = Pool(
    ticketId: TicketId, sellerId: UserId, price: int, buyers: seq<UserId>, status: PoolStatus,
    winnerId: Option<UserId>, buyerTotal: int, sellerSettlement: int)

  datatype RequestStatus = Pending | Approved | Rejected

  datatype GroupRequest = GroupRequest(
    eventId: string, dateId: string, zoneId: string, headcount: nat, status: RequestStatus)

  /** The two digests kept with a purchase: (kind, user, key) and the request they were first used for. */
  datatype Idempotency = Idempotency(group: bool, userId: UserId, key: string, tickets: set<TicketId>, requestMethod: string)

  datatype Transaction =
    | Primary(ticketId: TicketId, userId: UserId, amount: int, pg: Option<TossKey>, idem: Option<Idempotency>, order: nat)
    | GroupBooking(ticketIds: seq<TicketId>, userId: UserId, amount: int)
    | Resale(ticketId: TicketId, userId: UserId, sellerId: UserId, amount: int, transferAmount: int, platformFee: int)
    | Refund(ticketId: TicketId, userId: UserId, sellerId: UserId, amount: int, transferAmount: int)

  datatype Error =
    | MissingField | TicketNotFound | TicketNotAvailable | TicketLocked | InvalidTicketStatus | InvalidTicketState
    | EventNotFound | ZoneNotFound | EventDateNotFound | EventNotOnSale | EventAlreadyExists
    | EventZoneInUse | EventScheduleInUse | EventInventoryTooLarge | InvalidZoneSeatCount
    | UserNotFound | UserBanned | IdentityRequired | UnsupportedPaymentMethod
    | IdempotencyConflict | DuplicateSeat | TooManySeats | SeatPerformanceMismatch | SeatAlreadyHeld
    | HoldNotFound | HoldNotActive | HoldExtensionLimit | NotOwner | DraftNotFound
    | InstitutionalResaleBlocked | TransferLimitReached | InvalidResalePrice | PriceOutOfPolicy
    | PoolNotFound | PoolClosed | PoolAlreadyCanceled | SelfPurchaseBlocked | EmptyPool
    | RequestNotFound | AlreadyReviewed | InvalidHeadcount | InsufficientInventory
    | TicketCanceled

  datatype Actor = ByUser(id: UserId) | ByAdmin | BySystem | ByPublic

  datatype Happening =
    | PrimaryPurchase(ticketId: TicketId, amount: int)
    | ResaleListed(poolId: PoolId, ticketId: TicketId, price: int)
    | PoolJoined(poolId: PoolId)
    | ListingCanceled(poolId: PoolId, ticketId: TicketId)
    | ResaleMatched(poolId: PoolId, ticketId: TicketId, sellerId: UserId, buyerId: UserId, price: int, fee: int)
    | MatchReversed(poolId: PoolId, ticketId: TicketId, clawback: int, refund: int)
    | PoolCanceled(poolId: PoolId, ticketId: TicketId)
    | TicketStatusUpdated(ticketId: TicketId, status: TicketStatus)
    | GroupBookingSubmitted(requestId: RequestId)
    | GroupBookingApproved(requestId: RequestId, ticketIds: seq<TicketId>, buyerId: UserId)
    | GroupBookingRejected(requestId: RequestId)
    | EventCreated(eventId: string)
    | EventSaleUpdated(eventId: string)
    | EventVenueUpdated(eventId: string)
    | MobileQrUsed(ticketId: TicketId)
    | PaymentNeedsRefund(ticketIds: seq<TicketId>, tossKey: TossKey, amount: int, reason: Error)

  datatype LedgerEntry = LedgerEntry(actor: Actor, what: Happening)

  datatype Db = Db(
    tickets: Tickets,
    order: seq<TicketId>,
    events: map<string, Event>,
    users: seq<User>,
    holds: seq<Hold>,
    drafts: seq<Draft>,
    pools: seq<Pool>,
    requests: seq<GroupRequest>,
    txs: seq<Transaction>,
    ledger: seq<LedgerEntry>)

  /** What a handler leaves behind.  The database survives an exception as the handler left it. */
  datatype Reply = Reply(db: Db, result: Result<nat, Error>)

  const SERVICE_FEE_PER_SEAT := 2000
  const HOLD_TTL_MS := 5 * 60 * 1000
  const HOLD_EXTENSION_MS := 5 * 60 * 1000
  const HOLD_MAX_EXTENSIONS := 1
  const DRAFT_TTL_MS := 10 * 60 * 1000
  const MAX_HOLD_SEATS := 4
  const MAX_GROUP_PURCHASE_SEATS := 96
  const MAX_HEADCOUNT := 5000

  /** `Boolean(iso) && Date.parse(iso) <= currentTimeMs()` for a time that is always set. */
  predicate IsPast(expiresAt: int, now: int) {
    expiresAt <= now
  }

  function FindZone(zones: seq<Zone>, zoneId: string): Option<Zone> {
    if zones == [] then None
    else if zones[0].id == zoneId then Some(zones[0])
    else FindZone(zones[1..], zoneId)
  }

  function FindUser(users: seq<User>, userId: UserId): Result<User, Error> {
    if userId >= |users| then Err(UserNotFound)
    else if users[userId].banned then Err(UserBanned)
    else Ok(users[userId])
  }

  function Log(db: Db, actor: Actor, what: Happening): Db {
    db.(ledger := db.ledger + [LedgerEntry(actor, what)])
  }
}
