/**
 When a primary purchase succeeds, what a retry of it gets, and when the payment route asks its provider for money: told
 from accounts, events, tickets, holds, drafts and transactions alone.
 */
module PurchaseAnswers {
  import opened Prelude
  import opened SaleTypes
  import opened Holds
  import opened Commerce
  import opened Inventory
  import opened SaleInvariant
  import opened SaleOrders
  import opened HoldAnswers
  import opened PaymentRoute

  // ---------------------------------------------------------------------------------- what the records say

  /** An account that may buy, paying by a method there is. */
  predicate MayBuy(db: Db, p: Purchase) { Account(db, p.userId) && db.users[p.userId].verified && p.payment.Some? }

  /** A ticket with its event, zone and date. */
  ghost predicate Stands(db: Db, id: TicketId) {
    && id in db.tickets && id.eventId in db.events && HasZone(db.events[id.eventId].zones, id.zoneId)
    && id.dateId in db.events[id.eventId].dates
  }

  /** HELD by the buyer's own ACTIVE hold of this one seat, with time left. */
  predicate OwnHold(db: Db, id: TicketId, userId: UserId, now: int)
    requires id in db.tickets
  {
    var t := db.tickets[id];
    t.status == Held && t.heldBy.Some? && t.heldBy.value < |db.holds|
    && var hold := db.holds[t.heldBy.value];
       hold.userId == userId && hold.status == HoldActive && hold.ticketIds == [id] && now < hold.expiresAt
  }

  /** RESERVED by the named PENDING_PAYMENT draft of the buyer, of this one seat, with time left. */
  predicate OwnDraft(db: Db, id: TicketId, userId: UserId, named: Option<DraftId>, now: int)
    requires id in db.tickets
  {
    var t := db.tickets[id];
    t.status == Reserved && named.Some? && t.reservationId == named && named.value < |db.drafts|
    && var draft := db.drafts[named.value];
       draft.userId == userId && draft.status == PendingPayment && draft.ticketIds == [id] && now < draft.expiresAt
  }

  /** A seat one buyer can have now, holding it or not. */
  ghost predicate SeatOpen(db: Db, p: Purchase, holds: bool, now: int)
    requires |p.ticketIds| == 1
  {
    var id := p.ticketIds[0];
    && Stands(db, id) && db.events[id.eventId].bookable
    && (db.tickets[id].status == OnSale || (holds && OwnHold(db, id, p.userId, now)) || OwnDraft(db, id, p.userId, p.draftId, now))
  }

  /** One to ninety-six distinct seats on sale, of one performance that can be booked. */
  ghost predicate SeatsOpen(db: Db, ids: seq<TicketId>) {
    && 1 <= |ids| <= 96 && (forall i, j :: 0 <= i < j < |ids| ==> ids[i] != ids[j])
    && (forall id :: id in ids ==>
          && Stands(db, id) && db.events[id.eventId].bookable && db.tickets[id].status == OnSale
          && id.eventId == ids[0].eventId && id.dateId == ids[0].dateId)
  }

  /** A transaction made under the purchase's retry key. */
  predicate UnderKey(tx: Transaction, p: Purchase, group: bool) {
    && p.key.Some? && p.key.value != "" && tx.Primary? && tx.idem.Some?
    && tx.idem.value.group == group && tx.idem.value.userId == p.userId && tx.idem.value.key == p.key.value
  }

  /** And for the same seats and method as this one asks for. */
  predicate SameRequestAs(tx: Transaction, p: Purchase) {
    tx.Primary? && tx.idem.Some? && tx.idem.value.tickets == (set id | id in p.ticketIds) && tx.idem.value.requestMethod == p.requestMethod
  }

  ghost predicate FirstUse(db: Db, p: Purchase, group: bool) {
    forall j :: 0 <= j < |db.txs| ==> !UnderKey(db.txs[j], p, group)
  }

  // ------------------------------------------------------------------------------- from code to records

  lemma BuyerAsTold(db: Db, p: Purchase)
    ensures CheckBuyer(db, p).None? <==> MayBuy(db, p)
  {
  }

  lemma ContextAsTold(db: Db, id: TicketId)
    ensures CheckContext(db, id).None? <==> Stands(db, id)
  {
    if id.eventId in db.events { FindZoneFinds(db.events[id.eventId].zones, id.zoneId); }
  }

  lemma ClaimAsTold(db: Db, p: Purchase, holds: bool, now: int)
    requires |p.ticketIds| == 1
    ensures AssertPurchasable(db, p.ticketIds[0], p.userId, holds, p.draftId, now).Ok? <==> SeatOpen(db, p, holds, now)
    ensures SeatOpen(db, p, holds, now) ==>
              var id, claim := p.ticketIds[0], AssertPurchasable(db, p.ticketIds[0], p.userId, holds, p.draftId, now).value;
              claim == Claim(if db.tickets[id].status == Held then db.tickets[id].heldBy else None,
                             if db.tickets[id].status == Reserved then p.draftId else None)
  {
    ContextAsTold(db, p.ticketIds[0]);
    hide CheckContext;
  }

  lemma {:induction false} GroupAsTold(db: Db, ids: seq<TicketId>, userId: UserId, now: int)
    ensures CheckGroup(db, ids, userId, now).None? <==>
              forall id :: id in ids ==> Stands(db, id) && db.events[id.eventId].bookable && db.tickets[id].status == OnSale
  {
    if ids != [] {
      GroupAsTold(db, ids[1..], userId, now);
      ContextAsTold(db, ids[0]);
      hide CheckContext, Stands;
      assert forall id :: id in ids <==> id == ids[0] || id in ids[1..];
    }
  }

  lemma KeyAsTold(db: Db, p: Purchase, group: bool)
    ensures FindReplay(db, IdemOf(p, group)) == Ok(None) <==> FirstUse(db, p, group)
  {
    assert forall j :: 0 <= j < |db.txs| ==> (UnderKey(db.txs[j], p, group) <==> IdemOf(p, group).Some? && SameKey(db.txs[j], IdemOf(p, group).value));
  }

  // ------------------------------------------------------------------------------------------ purchases

  /**
   The first purchase of a seat under its retry key succeeds exactly if the buyer may buy, the seat stands in an event that
   can be booked, and it is on sale or the buyer's own live claim.  What it costs is the approved amount, else the total of
   the draft, else the face value; the claim it used is closed; and nothing else changes.
   */
  lemma BuyAnswers(db: Db, p: Purchase, now: int)
    requires |p.ticketIds| == 1 && FirstUse(db, p, false)
    ensures BuyPrimary(db, p, now).result.Ok? <==> MayBuy(db, p) && SeatOpen(db, p, p.allowHold, now)
    ensures BuyPrimary(db, p, now).result.Ok? ==>
              var r, id, t := BuyPrimary(db, p, now), p.ticketIds[0], db.tickets[p.ticketIds[0]];
              var amount := if p.approved.Some? then p.approved.value
                            else if t.status == Reserved then db.drafts[p.draftId.value].total else t.faceValue;
              && r.result == Ok(|db.txs|)
              && r.db == db.(
                   tickets := db.tickets[id := t.(ownerId := Some(p.userId), status := Owned, heldBy := None, holdExpiresAt := None,
                                                  reservationId := None, reservationExpiresAt := None)],
                   holds := if t.status == Held then db.holds[t.heldBy.value := db.holds[t.heldBy.value].(status := HoldConverted)] else db.holds,
                   drafts := if t.status == Reserved then db.drafts[p.draftId.value := db.drafts[p.draftId.value].(status := DraftConfirmed)]
                             else db.drafts,
                   txs := db.txs + [Primary(id, p.userId, amount, p.pg, IdemOf(p, false), |db.txs|)],
                   ledger := db.ledger + [LedgerEntry(ByUser(p.userId), PrimaryPurchase(id, amount))])
  {
    BuyerAsTold(db, p);
    KeyAsTold(db, p, false);
    ClaimAsTold(db, p, p.allowHold, now);
    hide CheckBuyer, FindReplay, AssertPurchasable, IdemOf, FirstUse, MayBuy;
  }

  /** The record a purchase leaves under its retry key. */
  lemma RecordAsTold(p: Purchase, group: bool)
    ensures IdemOf(p, group) == if p.key.None? || p.key.value == "" then None
                                else Some(Idempotency(group, p.userId, p.key.value, (set id | id in p.ticketIds), p.requestMethod))
  {
  }

  /** The first group order under its retry key succeeds exactly if the buyer may buy and all its seats are open together. */
  lemma BuyGroupAnswers(db: Db, p: Purchase, now: int)
    requires FirstUse(db, p, true)
    ensures BuyPrimaryGroup(db, p, now).result.Ok? <==> MayBuy(db, p) && SeatsOpen(db, p.ticketIds)
    ensures BuyPrimaryGroup(db, p, now).result.Ok? ==> BuyPrimaryGroup(db, p, now).result == Ok(|db.txs|)
  {
    BuyerAsTold(db, p);
    KeyAsTold(db, p, true);
    GroupAsTold(db, p.ticketIds, p.userId, now);
    hide CheckBuyer, FindReplay, IdemOf, CheckGroup, FirstUse, MayBuy, Stands, AllocateSeats, SplitGroupAmount, FaceValues;
  }

  /** What one seat of an order is recorded beyond its face value: an equal share, the last one taking the remainder. */
  function Share(extra: int, n: nat, i: nat): int
    requires n > 0
  {
    if i == n - 1 then extra - extra / n * (n - 1) else extra / n
  }

  lemma AmountAt(approved: Option<int>, faces: seq<int>, i: nat)
    requires i < |faces|
    ensures SplitGroupAmount(approved, faces)[i]
            == faces[i] + Share(if approved.Some? then approved.value - Sum(faces) else 0, |faces|, i)
  {
    assert 0 / |faces| == 0;
  }

  lemma OrderRecorded(db: Db, r: Db, p: Purchase, amounts: seq<int>, i: nat)
    requires Bought(db, r, p, true, amounts) && i < |p.ticketIds|
    ensures |amounts| == |p.ticketIds| && |r.txs| == |db.txs| + |p.ticketIds| && r.txs[..|db.txs|] == db.txs
    ensures r.txs[|db.txs| + i] == Primary(p.ticketIds[i], p.userId, amounts[i], p.pg, IdemOf(p, true), |db.txs|)
  {
    hide IdemOf, Allocated;
    var txs := OrderTxs(p, true, amounts, |db.txs|);
    assert r.txs == db.txs + txs && r.txs[|db.txs| + i] == txs[i];
  }

  /** Each seat of a group order is recorded at its face value plus its share of what was approved beyond the faces. */
  lemma BuyGroupRecords(db: Db, p: Purchase, now: int, i: nat)
    requires FirstUse(db, p, true) && BuyPrimaryGroup(db, p, now).result.Ok? && i < |p.ticketIds|
    ensures var r, n, id := BuyPrimaryGroup(db, p, now).db, |p.ticketIds|, p.ticketIds[i];
            && id in db.tickets && |r.txs| == |db.txs| + n && r.txs[..|db.txs|] == db.txs
            && r.txs[|db.txs| + i] == Primary(
                 id, p.userId,
                 db.tickets[id].faceValue + Share(if p.approved.Some? then p.approved.value - Faces(db.tickets, p.ticketIds) else 0, n, i),
                 p.pg, IdemOf(p, true), |db.txs|)
  {
    hide BuyPrimaryGroup, FindReplay, IdemOf, FirstUse, MayBuy, Bought, SplitGroupAmount, Share, Sum, Faces, Account, NoDuplicates;
    KeyAsTold(db, p, true);
    BuyGroupAnswers(db, p, now);
    var amounts := BuyGroupOutcome(db, p, now);
    SeatsFound(db, p.ticketIds);
    OrderRecorded(db, BuyPrimaryGroup(db, p, now).db, p, amounts, i);
    AmountAt(p.approved, FaceValues(db.tickets, p.ticketIds), i);
    FacesAddUp(db.tickets, p.ticketIds);
    assert p.ticketIds[i] in p.ticketIds;
  }

  lemma SeatsFound(db: Db, ids: seq<TicketId>)
    requires SeatsOpen(db, ids)
    ensures forall id :: id in ids ==> id in db.tickets
  {
    hide HasZone;
  }

  /** Every seat of it becomes the buyer's, and no other ticket changes. */
  lemma BuyGroupTickets(db: Db, p: Purchase, now: int, id: TicketId)
    requires FirstUse(db, p, true) && BuyPrimaryGroup(db, p, now).result.Ok? && id in db.tickets
    ensures var r, t := BuyPrimaryGroup(db, p, now).db, db.tickets[id];
            && r.tickets.Keys == db.tickets.Keys
            && r.tickets[id] == if id in p.ticketIds
                                then t.(ownerId := Some(p.userId), status := Owned, heldBy := None, holdExpiresAt := None,
                                        reservationId := None, reservationExpiresAt := None)
                                else t
  {
    hide BuyPrimaryGroup, FindReplay, IdemOf, FirstUse;
    KeyAsTold(db, p, true);
    var amounts := BuyGroupOutcome(db, p, now);
    hide OrderTxs, OrderEntries, SplitGroupAmount, Sum;
  }

  /** The seats, the money and the records of a group order are stated elsewhere; holds, drafts and all the rest stay. */
  lemma BuyGroupLeavesRest(db: Db, p: Purchase, now: int)
    ensures var r := BuyPrimaryGroup(db, p, now).db; r == db.(tickets := r.tickets, txs := r.txs, ledger := r.ledger)
  {
    hide CheckBuyer, FindReplay, IdemOf, FirstUse, CheckGroup, AllocateSeats, SplitGroupAmount, OnePerformance, CheckContexts;
    if CheckGroup(db, p.ticketIds, p.userId, now).None? && p.ticketIds != [] {
      CheckGroupFindsTickets(db, p.ticketIds, p.userId, now);
      AllocationLeavesRest(db, p, SplitGroupAmount(p.approved, FaceValues(db.tickets, p.ticketIds)), |p.ticketIds|);
    }
  }

  lemma {:induction false} AllocationLeavesRest(db: Db, p: Purchase, amounts: seq<int>, n: nat)
    requires n <= |p.ticketIds| && |amounts| == |p.ticketIds| && forall id :: id in p.ticketIds ==> id in db.tickets
    ensures var r := AllocateSeats(db, p, amounts, n); r == db.(tickets := r.tickets, txs := r.txs, ledger := r.ledger)
  {
    if n > 0 {
      AllocationLeavesRest(db, p, amounts, n - 1);
      assert p.ticketIds[n - 1] in p.ticketIds;
    }
  }

  /**
   Under a retry key that has been used, a buyer who may buy gets the first order again if this is the same request, seats
   that were left to it included, and otherwise IDEMPOTENCY_CONFLICT.  Nothing is ever bought twice.
   */
  lemma RetryAnswers(db: Db, opening: seq<int>, p: Purchase, group: bool, now: int, first: nat)
    requires Inv(db, opening) && OneOrderPerKey(db.txs) && MayBuy(db, p)
    requires if group then 1 <= |p.ticketIds| <= 96 && (forall i, j :: 0 <= i < j < |p.ticketIds| ==> p.ticketIds[i] != p.ticketIds[j])
             else |p.ticketIds| == 1
    requires first < |db.txs| && UnderKey(db.txs[first], p, group)
    ensures BuyStep(db, p, group, now) == Reply(
              db, if SameRequestAs(db.txs[first], p) then Ok(db.txs[first].order) else Err(IdempotencyConflict))
  {
    BuyerAsTold(db, p);
    UsedKey(db, p, group, first);
    if SameRequestAs(db.txs[first], p) { ReplayAnswers(db, opening, p, group, now); }
    hide Inv, CheckBuyer, FindReplay, IdemOf, MayBuy, OneOrderPerKey, CheckContext, CheckContexts, AssertPurchasable;
  }

  lemma UsedKey(db: Db, p: Purchase, group: bool, first: nat)
    requires OneOrderPerKey(db.txs) && first < |db.txs| && UnderKey(db.txs[first], p, group)
    ensures var replay := FindReplay(db, IdemOf(p, group));
            if SameRequestAs(db.txs[first], p)
            then replay.Ok? && replay.value.Some? && db.txs[replay.value.value].order == db.txs[first].order
            else replay == Err(IdempotencyConflict)
  {
    var idem := IdemOf(p, group).value;
    assert SameKey(db.txs[first], idem);
  }

  /** The transactions a retry answers for: the first under its key, or all of them for a group order. */
  predicate Concerned(db: Db, p: Purchase, group: bool, first: nat, j: nat)
    requires first < |db.txs| && j < |db.txs|
  {
    j == first || (group && UnderKey(db.txs[j], p, group))
  }

  lemma {:induction false} ContextsAsTold(db: Db, txs: seq<Transaction>, p: Purchase)
    requires IdemOf(p, true).Some?
    ensures CheckContexts(db, txs, IdemOf(p, true).value).None? <==> forall tx :: tx in txs && UnderKey(tx, p, true) ==> Stands(db, tx.ticketId)
  {
    if txs != [] {
      ContextsAsTold(db, txs[1..], p);
      if txs[0].Primary? { ContextAsTold(db, txs[0].ticketId); }
      assert txs[0] in txs && (forall tx :: tx in txs[1..] ==> tx in txs) && forall tx :: tx in txs ==> tx == txs[0] || tx in txs[1..];
      hide CheckContext, Stands;
    }
  }

  lemma FirstFound(db: Db, p: Purchase, group: bool, first: nat)
    requires first < |db.txs| && UnderKey(db.txs[first], p, group) && forall j :: 0 <= j < first ==> !UnderKey(db.txs[j], p, group)
    ensures FindKey(db.txs, IdemOf(p, group).value) == Some(first)
  {
    var idem := IdemOf(p, group).value;
    assert forall j :: 0 <= j < |db.txs| ==> (UnderKey(db.txs[j], p, group) <==> SameKey(db.txs[j], idem));
  }

  lemma SameAsTold(tx: Transaction, p: Purchase, group: bool)
    requires UnderKey(tx, p, group)
    ensures IdemOf(p, group).Some? && (tx.idem == IdemOf(p, group) <==> SameRequestAs(tx, p))
  {
  }

  lemma ReplayAsTold(db: Db, p: Purchase, group: bool, first: nat)
    requires first < |db.txs| && UnderKey(db.txs[first], p, group) && forall j :: 0 <= j < first ==> !UnderKey(db.txs[j], p, group)
    ensures FindReplay(db, IdemOf(p, group))
            == if forall j :: 0 <= j < |db.txs| && Concerned(db, p, group, first, j) ==> SameRequestAs(db.txs[j], p)
               then Ok(Some(first)) else Err(IdempotencyConflict)
  {
    FirstFound(db, p, group, first);
    SameAsTold(db.txs[first], p, group);
    var idem := IdemOf(p, group);
    forall j | 0 <= j < |db.txs|
      ensures UnderKey(db.txs[j], p, group) <==> SameKey(db.txs[j], idem.value)
      ensures UnderKey(db.txs[j], p, group) ==> (db.txs[j].idem == idem <==> SameRequestAs(db.txs[j], p))
    {
      if UnderKey(db.txs[j], p, group) { SameAsTold(db.txs[j], p, group); }
    }
    hide IdemOf, UnderKey, SameRequestAs, SameKey, FindKey;
  }

  /**
   In any state at all, a retry gets the first order again exactly if it asks for the same as the transactions it answers
   for and the tickets of these still have event, zone and date.
   */
  lemma RetryIff(db: Db, p: Purchase, group: bool, now: int, first: nat)
    requires MayBuy(db, p) && first < |db.txs| && UnderKey(db.txs[first], p, group)
    requires forall j :: 0 <= j < first ==> !UnderKey(db.txs[j], p, group)
    requires if group then 1 <= |p.ticketIds| <= 96 && NoDuplicates(p.ticketIds) else |p.ticketIds| == 1
    ensures var r := BuyStep(db, p, group, now);
            && r.db == db
            && (r.result.Ok? <==> forall j :: 0 <= j < |db.txs| && Concerned(db, p, group, first, j) ==>
                                    SameRequestAs(db.txs[j], p) && Stands(db, db.txs[j].ticketId))
            && (r.result.Ok? ==> r.result == Ok(db.txs[first].order))
  {
    BuyerAsTold(db, p);
    ReplayAsTold(db, p, group, first);
    SameAsTold(db.txs[first], p, group);
    ContextAsTold(db, db.txs[first].ticketId);
    if group { ContextsAsTold(db, db.txs, p); }
    hide MayBuy, CheckBuyer, FindReplay, IdemOf, UnderKey, SameRequestAs, Stands, CheckContext, CheckContexts, NoDuplicates;
  }

  // ------------------------------------------------------------------------------------- asking for money

  /**
   The route asks its provider for money exactly if no order was made under the retry key and the seat could be bought, the
   buyer's own live single-seat hold counting; and it asks for face value plus 2000, or for the total of the draft.
   */
  lemma BeginAnswers(db: Db, p: Purchase, now: int)
    requires |p.ticketIds| == 1
    ensures AmountDue(db, p, false, now).Some? <==> FirstUse(db, p, false) && SeatOpen(db, p, true, now)
    ensures AmountDue(db, p, false, now).Some? ==>
              var t := db.tickets[p.ticketIds[0]];
              AmountDue(db, p, false, now) == Some(if t.status == Reserved then db.drafts[p.draftId.value].total else t.faceValue + 2000)
  {
    KeyAsTold(db, p, false);
    ClaimAsTold(db, p, true, now);
    hide FindReplay, AssertPurchasable, IdemOf, FirstUse;
  }

  /** For several seats: all open together, at their face values plus 2000 each. */
  lemma BeginGroupAnswers(db: Db, p: Purchase, now: int)
    ensures AmountDue(db, p, true, now).Some? <==> FirstUse(db, p, true) && SeatsOpen(db, p.ticketIds)
    ensures AmountDue(db, p, true, now).Some? ==>
              AmountDue(db, p, true, now) == Some(Faces(db.tickets, p.ticketIds) + 2000 * |p.ticketIds|)
  {
    KeyAsTold(db, p, true);
    GroupAsTold(db, p.ticketIds, p.userId, now);
    if SeatsOpen(db, p.ticketIds) { FacesAddUp(db.tickets, p.ticketIds); }
    hide FindReplay, IdemOf, CheckGroup, FirstUse, Stands, FaceValues, Faces;
  }

  /** A seat one has just taken a hold on can be paid for, at face value plus 2000, as long as the hold lasts. */
  lemma OwnHoldCanBePaid(db: Db, opening: seq<int>, p: Purchase, dateId: string, held: int, now: int)
    requires Inv(db, opening) && |p.ticketIds| == 1 && FirstUse(db, p, false) && held <= now < held + 300000
    requires CreateSeatHold(db, p.userId, dateId, p.ticketIds, held).result.Ok?
    requires Stands(db, p.ticketIds[0])
    ensures var r, id := CreateSeatHold(db, p.userId, dateId, p.ticketIds, held).db, p.ticketIds[0];
            id in db.tickets && AmountDue(r, p, false, now) == Some(db.tickets[id].faceValue + 2000)
  {
    hide Inv, CreateSeatHold, AmountDue, HasZone, UnderKey, Account;
    NewHoldAnswers(db, opening, p.userId, dateId, p.ticketIds, held);
    NewHoldLeaves(db, opening, p.userId, dateId, p.ticketIds, held);
    var r := CreateSeatHold(db, p.userId, dateId, p.ticketIds, held).db;
    assert p.ticketIds[0] in p.ticketIds && p.ticketIds == [p.ticketIds[0]];
    assert FirstUse(r, p, false);
    BeginAnswers(r, p, now);
  }
}
