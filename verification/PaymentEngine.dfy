/** The two halves of the TossPayments route as the server runs them, before and after the provider is awaited. */
module PaymentEngine {
  import opened Prelude
  import opened SaleTypes
  import opened Holds
  import opened Commerce
  import opened SaleOrders
  import opened PaymentRoute
  import opened PurchaseAnswers
  import opened Database
  import CommerceEngine

  lemma NoEarlierOrder(db: Db, idem: Option<Idempotency>)
    ensures FindReplay(db, idem) == Ok(None) && idem.Some? ==> forall tx :: tx in db.txs ==> !SameKey(tx, idem.value)
  {
  }

  /** Up to the `await`: validates without changing anything and fixes the amount the provider must charge. */
  method BeginPayment(db: Database, p: Purchase, group: bool, now: int) returns (due: Option<int>)
    requires group || |p.ticketIds| == 1
    ensures due == AmountDue(db.Snapshot(), p, group, now)
    ensures due.Some? <==>
              && FirstUse(db.Snapshot(), p, group)
              && if group then SeatsOpen(db.Snapshot(), p.ticketIds) else SeatOpen(db.Snapshot(), p, true, now)
    ensures due.Some? && IdemOf(p, group).Some? ==> forall tx :: tx in db.txs ==> !SameKey(tx, IdemOf(p, group).value)
    ensures due.Some? && group ==>
              && p.ticketIds != [] && NoDuplicates(p.ticketIds) && OnePerformance(p.ticketIds)
              && (forall id :: id in p.ticketIds ==> id in db.tickets && db.tickets[id].status == OnSale)
              && due.value == Sum(FaceValues(db.tickets, p.ticketIds)) + |p.ticketIds| * 2000
    ensures due.Some? && !group ==>
              var id := p.ticketIds[0];
              && id in db.tickets
              && match db.tickets[id].status
                 case OnSale => due.value == db.tickets[id].faceValue + 2000
                 case Held => OwnSingleSeatHold(db.Snapshot(), id, p.userId, now) && due.value == db.tickets[id].faceValue + 2000
                 case Reserved => && p.draftId.Some? && OwnSingleSeatDraft(db.Snapshot(), id, p.userId, p.draftId.value, now)
                                  && due.value == db.drafts[p.draftId.value].total
                 case _ => false
  {
    var snapshot := db.Snapshot();
    NoEarlierOrder(snapshot, IdemOf(p, group));
    hide FindReplay, IdemOf, CheckGroup, FindZone, FirstUse, SeatsOpen, SeatOpen;
    if group { BeginGroupAnswers(snapshot, p, now); } else { BeginAnswers(snapshot, p, now); }
    if group {
      if NormalizeGroup(p.ticketIds).Some? { return None; }
      var replay := FindReplay(snapshot, IdemOf(p, true));
      if replay != Ok(None) { return None; }
      if CheckGroup(snapshot, p.ticketIds, p.userId, now).Some? { return None; }
      if !OnePerformance(p.ticketIds) { return None; }
      CheckGroupFindsTickets(snapshot, p.ticketIds, p.userId, now);
      return Some(Sum(FaceValues(db.tickets, p.ticketIds)) + |p.ticketIds| * SERVICE_FEE_PER_SEAT);
    }
    var replay := FindReplay(snapshot, IdemOf(p, false));
    if replay != Ok(None) { return None; }
    var claim := AssertPurchasable(snapshot, p.ticketIds[0], p.userId, true, p.draftId, now);
    if claim.Err? { return None; }
    if claim.value.draft.Some? { return Some(db.drafts[claim.value.draft.value].total); }
    return Some(db.tickets[p.ticketIds[0]].faceValue + SERVICE_FEE_PER_SEAT);
  }

  /** From the `await` on, with the payment confirmed: buys, or catches whatever the purchase throws and notes the refund. */
  method FinishPayment(db: Database, pay: Payment, key: TossKey, receipt: Option<PaymentMethod>, now: int) returns (bought: bool)
    requires pay.group || |pay.purchase.ticketIds| == 1
    modifies db
    ensures var r := FinishConfirmed(Route(old(db.Snapshot()), [pay], {}), 0, key, receipt, now);
            db.Snapshot() == r.db && (bought <==> !r.payments[0].phase.ending.RefundLogged?)
  {
    hide Commerce.BuyPrimary, Commerce.BuyPrimaryGroup, IsReplay;
    var p := Confirming(pay, key, receipt);
    var result;
    if pay.group {
      result := CommerceEngine.BuyPrimaryGroup(db, p, now);
    } else {
      result := CommerceEngine.BuyPrimary(db, p, now);
    }
    if result.Err? {
      db.Append(ByUser(p.userId), PaymentNeedsRefund(p.ticketIds, key, pay.amount, result.error));
    }
    return result.Ok?;
  }
}
