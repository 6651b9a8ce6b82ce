/**
 The TossPayments purchase route (backend/api-router.js): Begin validates and fixes the amount, the provider is
 awaited while any other handler may run, Finish re-validates and either allocates or logs a needed refund.
 */
module PaymentRoute {
  import opened Prelude
  import opened SaleTypes
  import opened Holds
  import opened Commerce
  import opened Inventory
  import opened SaleSteps
  import opened SaleInvariant
  import opened SaleResale
  import opened SaleHandlers
  import opened SaleProgress
  import opened SaleOrders

  datatype Ending = NotConfirmed | Settled | RefundLogged | LateReplay | AmountMismatch

  datatype Phase = Awaiting | Done(ending: Ending, captured: Option<TossKey>)

  datatype Payment = Payment(purchase: Purchase, group: bool, tossKey: TossKey, amount: int, phase: Phase)

  /** The database, every payment that ever reached the provider, and the keys the provider has captured money under. */
  datatype Route = Route(db: Db, payments: seq<Payment>, captured: set<TossKey>)

  /**
   The provider's answer: nothing captured, the amount asked for captured under a key, or another amount.  The last
   is an exception outside the block that logs refunds.
   */
  datatype Confirmation =
    | Refused
    | Confirmed(key: TossKey, receipt: Option<PaymentMethod>)
    | Mismatched(key: TossKey, charged: int)

  datatype Event =
    | Begin(purchase: Purchase, group: bool, tossKey: TossKey)
    | Finish(i: nat, confirmation: Confirmation)
    | Other(step: Step)

  // ------------------------------------------------------------------------------------- the route

  /** What `Begin` decides: the amount the provider must have charged, or that the provider is not called at all. */
  function AmountDue(db: Db, p: Purchase, group: bool, now: int): Option<int>
    requires group || |p.ticketIds| == 1
  {
    if group then
      if NormalizeGroup(p.ticketIds).Some? || FindReplay(db, IdemOf(p, true)) != Ok(None) then None
      else if CheckGroup(db, p.ticketIds, p.userId, now).Some? || !OnePerformance(p.ticketIds) then None
      else
        CheckGroupFindsTickets(db, p.ticketIds, p.userId, now);
        Some(Sum(FaceValues(db.tickets, p.ticketIds)) + |p.ticketIds| * SERVICE_FEE_PER_SEAT)
    else
      var claim := AssertPurchasable(db, p.ticketIds[0], p.userId, true, p.draftId, now);
      if FindReplay(db, IdemOf(p, false)) != Ok(None) || claim.Err? then None
      else if claim.value.draft.Some? then Some(db.drafts[claim.value.draft.value].total)
      else Some(db.tickets[p.ticketIds[0]].faceValue + SERVICE_FEE_PER_SEAT)
  }

  /** The purchase `Finish` makes: the provider's method and key, the amount fixed by `Begin`, the request's own retry key. */
  function Confirming(pay: Payment, key: TossKey, receipt: Option<PaymentMethod>): Purchase {
    pay.purchase.(payment := receipt, pg := Some(key), approved := Some(pay.amount), allowHold := !pay.group)
  }

  ghost function FinishConfirmed(route: Route, i: nat, key: TossKey, receipt: Option<PaymentMethod>, now: int): Route
    requires i < |route.payments| && (route.payments[i].group || |route.payments[i].purchase.ticketIds| == 1)
  {
    var pay := route.payments[i];
    var p := Confirming(pay, key, receipt);
    var reply := BuyStep(route.db, p, pay.group, now);
    var ending := if reply.result.Err? then RefundLogged else if IsReplay(route.db, p, pay.group) then LateReplay else Settled;
    var db := if reply.result.Err?
              then Log(reply.db, ByUser(p.userId), PaymentNeedsRefund(p.ticketIds, key, pay.amount, reply.result.error))
              else reply.db;
    Route(db, route.payments[i := pay.(phase := Done(ending, Some(key)))], route.captured + {key})
  }

  /** TOSSPAYMENTS_AMOUNT_MISMATCH: the request ends and nothing is written. */
  function FinishMismatched(route: Route, i: nat, key: TossKey): Route
    requires i < |route.payments|
  {
    route.(payments := route.payments[i := route.payments[i].(phase := Done(AmountMismatch, Some(key)))],
           captured := route.captured + {key})
  }

  /**
   What a step may be: a request in the shape its branch of the route takes; an answer to an awaiting payment, the
   provider capturing money under a key at most once; any other handler, which neither logs payment refunds nor
   records a TossPayments key.
   */
  ghost predicate Possible(route: Route, event: Event) {
    match event
    case Begin(p, group, _) => (if group then |p.ticketIds| > 1 else |p.ticketIds| == 1) && p.key.Some? && p.key.value != ""
    case Finish(i, confirmation) =>
      i < |route.payments| && route.payments[i].phase.Awaiting?
      && (route.payments[i].group || |route.payments[i].purchase.ticketIds| == 1)
      && (!confirmation.Refused? ==> confirmation.key !in route.captured)
      && (confirmation.Mismatched? ==> confirmation.charged != route.payments[i].amount)
    case Other(step) => WellFormed(step) && !step.RefundNeeded? && (step.Buy? ==> step.purchase.pg.None?)
  }

  ghost function React(route: Route, event: Event, now: int): Route
    requires Possible(route, event)
  {
    match event
    case Begin(p, group, tossKey) =>
      var due := AmountDue(route.db, p, group, now);
      if due.None? then route
      else route.(payments := route.payments + [Payment(p, group, tossKey, due.value, Awaiting)])
    case Finish(i, Refused) => route.(payments := route.payments[i := route.payments[i].(phase := Done(NotConfirmed, None))])
    case Finish(i, Confirmed(key, receipt)) => FinishConfirmed(route, i, key, receipt, now)
    case Finish(i, Mismatched(key, charged)) => FinishMismatched(route, i, key)
    case Other(step) => route.(db := Apply(route.db, step, now).db)
  }

  // ----------------------------------------------------------------------------- where a key shows up

  /** Tickets bought under a key, over all PRIMARY transactions. */
  function TicketsPaid(txs: seq<Transaction>, key: TossKey): seq<TicketId> {
    if txs == [] then []
    else
      var tx := txs[|txs| - 1];
      TicketsPaid(txs[..|txs| - 1], key) + (if tx.Primary? && tx.pg == Some(key) then [tx.ticketId] else [])
  }

  function AmountPaid(txs: seq<Transaction>, key: TossKey): int {
    if txs == [] then 0
    else
      var tx := txs[|txs| - 1];
      AmountPaid(txs[..|txs| - 1], key) + (if tx.Primary? && tx.pg == Some(key) then tx.amount else 0)
  }

  /** Tickets and amounts of the refund notices under a key. */
  function RefundsNoted(ledger: seq<LedgerEntry>, key: TossKey): seq<(seq<TicketId>, int)> {
    if ledger == [] then []
    else
      var what := ledger[|ledger| - 1].what;
      RefundsNoted(ledger[..|ledger| - 1], key)
      + (if what.PaymentNeedsRefund? && what.tossKey == key then [(what.ticketIds, what.amount)] else [])
  }

  /** All seats of the request were bought under the key, for exactly the amount fixed at Begin, and no refund is noted. */
  ghost predicate InTransactions(db: Db, pay: Payment, key: TossKey) {
    && TicketsPaid(db.txs, key) == pay.purchase.ticketIds
    && AmountPaid(db.txs, key) == pay.amount
    && RefundsNoted(db.ledger, key) == []
  }

  /** One refund notice carries the key, for all of the request's seats and amount, and no transaction does. */
  ghost predicate InRefundNotice(db: Db, pay: Payment, key: TossKey) {
    TicketsPaid(db.txs, key) == [] && AmountPaid(db.txs, key) == 0
    && RefundsNoted(db.ledger, key) == [(pay.purchase.ticketIds, pay.amount)]
  }

  ghost predicate Nowhere(db: Db, key: TossKey) {
    TicketsPaid(db.txs, key) == [] && AmountPaid(db.txs, key) == 0 && RefundsNoted(db.ledger, key) == []
  }

  /** What each ending promises about the captured key. */
  ghost predicate Kept(db: Db, pay: Payment) {
    pay.phase.Done? && pay.phase.captured.Some? ==>
      match pay.phase.ending
      case Settled => InTransactions(db, pay, pay.phase.captured.value)
      case RefundLogged => InRefundNotice(db, pay, pay.phase.captured.value)
      case LateReplay => Nowhere(db, pay.phase.captured.value)
      case AmountMismatch => Nowhere(db, pay.phase.captured.value)
      case NotConfirmed => false
  }

  ghost predicate KeysCaptured(db: Db, captured: set<TossKey>) {
    && (forall j :: 0 <= j < |db.txs| && db.txs[j].Primary? && db.txs[j].pg.Some? ==> db.txs[j].pg.value in captured)
    && (forall j :: 0 <= j < |db.ledger| && db.ledger[j].what.PaymentNeedsRefund? ==> db.ledger[j].what.tossKey in captured)
  }

  ghost predicate PayOk(db: Db, captured: set<TossKey>, pay: Payment) {
    && (if pay.group then NormalizeGroup(pay.purchase.ticketIds).None? else |pay.purchase.ticketIds| == 1)
    && IdemOf(pay.purchase, pay.group).Some?
    && (pay.phase.Done? && pay.phase.captured.Some? ==> pay.phase.captured.value in captured)
    && Kept(db, pay)
  }

  ghost predicate RouteInv(route: Route, opening: seq<int>) {
    && Inv(route.db, opening)
    && KeysCaptured(route.db, route.captured)
    && (forall i {:trigger PayOk(route.db, route.captured, route.payments[i])} :: 0 <= i < |route.payments| ==>
          PayOk(route.db, route.captured, route.payments[i]))
  }

  // --------------------------------------------------------------------------------------- framing

  /** Nothing appended mentions the key. */
  ghost predicate Silent(db: Db, db1: Db, key: TossKey) {
    && db.txs <= db1.txs && db.ledger <= db1.ledger
    && (forall j :: |db.txs| <= j < |db1.txs| && db1.txs[j].Primary? ==> db1.txs[j].pg != Some(key))
    && (forall j :: |db.ledger| <= j < |db1.ledger| && db1.ledger[j].what.PaymentNeedsRefund? ==> db1.ledger[j].what.tossKey != key)
  }

  lemma {:induction false} PaidFrame(txs: seq<Transaction>, more: seq<Transaction>, key: TossKey)
    requires forall j :: 0 <= j < |more| && more[j].Primary? ==> more[j].pg != Some(key)
    ensures TicketsPaid(txs + more, key) == TicketsPaid(txs, key) && AmountPaid(txs + more, key) == AmountPaid(txs, key)
  {
    if more == [] {
      assert txs + more == txs;
    } else {
      var init := more[..|more| - 1];
      PaidFrame(txs, init, key);
      assert (txs + more)[..|txs + more| - 1] == txs + init;
    }
  }

  lemma {:induction false} NotedFrame(ledger: seq<LedgerEntry>, more: seq<LedgerEntry>, key: TossKey)
    requires forall j :: 0 <= j < |more| && more[j].what.PaymentNeedsRefund? ==> more[j].what.tossKey != key
    ensures RefundsNoted(ledger + more, key) == RefundsNoted(ledger, key)
  {
    if more == [] {
      assert ledger + more == ledger;
    } else {
      var init := more[..|more| - 1];
      NotedFrame(ledger, init, key);
      assert (ledger + more)[..|ledger + more| - 1] == ledger + init;
    }
  }

  lemma SilentSame(db: Db, db1: Db, key: TossKey)
    requires Silent(db, db1, key)
    ensures TicketsPaid(db1.txs, key) == TicketsPaid(db.txs, key) && AmountPaid(db1.txs, key) == AmountPaid(db.txs, key)
    ensures RefundsNoted(db1.ledger, key) == RefundsNoted(db.ledger, key)
  {
    var txs, entries := db1.txs[|db.txs|..], db1.ledger[|db.ledger|..];
    assert db1.txs == db.txs + txs && db1.ledger == db.ledger + entries;
    PaidFrame(db.txs, txs, key);
    NotedFrame(db.ledger, entries, key);
  }

  lemma FreshKeyNowhere(db: Db, captured: set<TossKey>, key: TossKey)
    requires KeysCaptured(db, captured) && key !in captured
    ensures Nowhere(db, key)
  {
    PaidFrame([], db.txs, key);
    NotedFrame([], db.ledger, key);
    assert [] + db.txs == db.txs && [] + db.ledger == db.ledger;
  }

  lemma {:induction false} OrderPaid(txs: seq<Transaction>, p: Purchase, group: bool, amounts: seq<int>, order: nat, key: TossKey, n: nat)
    requires |amounts| == |p.ticketIds| && n <= |amounts| && p.pg == Some(key)
    ensures var now := txs + OrderTxs(p, group, amounts, order)[..n];
            TicketsPaid(now, key) == TicketsPaid(txs, key) + p.ticketIds[..n]
            && AmountPaid(now, key) == AmountPaid(txs, key) + Sum(amounts[..n])
  {
    var made := OrderTxs(p, group, amounts, order);
    if n == 0 {
      assert txs + made[..0] == txs;
    } else {
      OrderPaid(txs, p, group, amounts, order, key, n - 1);
      assert (txs + made[..n])[..|txs| + n - 1] == txs + made[..n - 1];
      assert p.ticketIds[..n] == p.ticketIds[..n - 1] + [p.ticketIds[n - 1]];
      assert amounts[..n][..n - 1] == amounts[..n - 1];
    }
  }

  // ---------------------------------------------------------------------------------------- finish

  lemma SettledWrites(db: Db, db1: Db, p: Purchase, group: bool, amounts: seq<int>, key: TossKey)
    requires Bought(db, db1, p, group, amounts) && p.pg == Some(key) && p.approved.Some? && Nowhere(db, key)
    ensures TicketsPaid(db1.txs, key) == p.ticketIds && AmountPaid(db1.txs, key) == p.approved.value
    ensures RefundsNoted(db1.ledger, key) == []
  {
    hide OrderTxs, OrderEntries, Allocated;
    OrderPaid(db.txs, p, group, amounts, |db.txs|, key, |amounts|);
    var made := OrderTxs(p, group, amounts, |db.txs|);
    OrderShape(p, group, amounts, |db.txs|);
    assert made[..|amounts|] == made && p.ticketIds[..|amounts|] == p.ticketIds && amounts[..|amounts|] == amounts;
    NotedFrame(db.ledger, OrderEntries(p, amounts), key);
  }

  lemma OrderShape(p: Purchase, group: bool, amounts: seq<int>, order: nat)
    requires |amounts| == |p.ticketIds|
    ensures |OrderTxs(p, group, amounts, order)| == |amounts|
    ensures forall j :: 0 <= j < |amounts| ==> OrderTxs(p, group, amounts, order)[j].Primary? && OrderTxs(p, group, amounts, order)[j].pg == p.pg
    ensures forall j :: 0 <= j < |OrderEntries(p, amounts)| ==> !OrderEntries(p, amounts)[j].what.PaymentNeedsRefund?
  {
  }

  lemma SettledIsSilent(db: Db, db1: Db, p: Purchase, group: bool, amounts: seq<int>, key: TossKey)
    requires Bought(db, db1, p, group, amounts) && p.pg == Some(key)
    ensures forall k :: k != key ==> Silent(db, db1, k)
  {
    hide OrderTxs, OrderEntries, Allocated;
    OrderShape(p, group, amounts, |db.txs|);
  }

  lemma RefundWrites(db: Db, userId: UserId, ids: seq<TicketId>, amount: int, key: TossKey, reason: Error)
    requires Nowhere(db, key)
    ensures var db1 := Log(db, ByUser(userId), PaymentNeedsRefund(ids, key, amount, reason));
            TicketsPaid(db1.txs, key) == [] && AmountPaid(db1.txs, key) == 0
            && RefundsNoted(db1.ledger, key) == [(ids, amount)]
            && forall k :: k != key ==> Silent(db, db1, k)
  {
    var db1 := Log(db, ByUser(userId), PaymentNeedsRefund(ids, key, amount, reason));
    assert db1.ledger[..|db1.ledger| - 1] == db.ledger;
  }

  /** The captured key ends where the ending says, and the other keys stay where they were. */
  lemma FinishPlacesKey(route: Route, opening: seq<int>, i: nat, key: TossKey, receipt: Option<PaymentMethod>, now: int)
    requires RouteInv(route, opening) && Possible(route, Finish(i, Confirmed(key, receipt)))
    ensures var r := FinishConfirmed(route, i, key, receipt, now);
            Kept(r.db, r.payments[i]) && forall k :: k != key ==> Silent(route.db, r.db, k)
  {
    hide Inv, BuyStep, IsReplay, Silent, Bought;
    var pay := route.payments[i];
    var p := Confirming(pay, key, receipt);
    FreshKeyNowhere(route.db, route.captured, key);
    PurchaseIsAtomic(route.db, p, pay.group, now);
    var reply := BuyStep(route.db, p, pay.group, now);
    if reply.result.Err? {
      RefundWrites(route.db, p.userId, p.ticketIds, pay.amount, key, reply.result.error);
    } else if !IsReplay(route.db, p, pay.group) {
      var amounts := PurchaseIsComplete(route.db, p, pay.group, now);
      SettledWrites(route.db, reply.db, p, pay.group, amounts, key);
      SettledIsSilent(route.db, reply.db, p, pay.group, amounts, key);
    } else {
      SameIsSilent(route.db);
    }
  }

  lemma SameIsSilent(db: Db)
    ensures forall k :: Silent(db, db, k)
  {
  }

  lemma KeptStays(db: Db, db1: Db, captured: set<TossKey>, captured1: set<TossKey>, pay: Payment)
    requires PayOk(db, captured, pay) && captured <= captured1
    requires pay.phase.Done? && pay.phase.captured.Some? ==> Silent(db, db1, pay.phase.captured.value)
    ensures PayOk(db1, captured1, pay)
  {
    if pay.phase.Done? && pay.phase.captured.Some? { SilentSame(db, db1, pay.phase.captured.value); }
  }

  lemma BuyKeepsInv(db: Db, opening: seq<int>, p: Purchase, group: bool, now: int)
    requires Inv(db, opening) && (group || |p.ticketIds| == 1)
    ensures Inv(BuyStep(db, p, group, now).db, opening)
    ensures Grows(db, BuyStep(db, p, group, now).db, true, false)
  {
    hide Inv, BuyPrimary, BuyPrimaryGroup;
    StepKeeps(db, opening, Buy(p, group), now);
    StepProgress(db, opening, Buy(p, group), now);
  }

  lemma FinishKeepsInv(route: Route, opening: seq<int>, i: nat, key: TossKey, receipt: Option<PaymentMethod>, now: int)
    requires RouteInv(route, opening) && Possible(route, Finish(i, Confirmed(key, receipt)))
    ensures Inv(FinishConfirmed(route, i, key, receipt, now).db, opening)
  {
    hide Inv, BuyStep, PayOk;
    var pay := route.payments[i];
    var p := Confirming(pay, key, receipt);
    BuyKeepsInv(route.db, opening, p, pay.group, now);
    var reply := BuyStep(route.db, p, pay.group, now);
    InvIgnoresLedger(reply.db, FinishConfirmed(route, i, key, receipt, now).db.ledger, opening);
  }

  lemma CapturedGrow(db: Db, db1: Db, captured: set<TossKey>, key: TossKey)
    requires KeysCaptured(db, captured) && db.txs <= db1.txs && db.ledger <= db1.ledger
    requires forall k :: k != key ==> Silent(db, db1, k)
    ensures KeysCaptured(db1, captured + {key})
  {
    forall j | 0 <= j < |db1.txs| && db1.txs[j].Primary? && db1.txs[j].pg.Some?
      ensures db1.txs[j].pg.value in captured + {key}
    {
      if j < |db.txs| { assert db1.txs[j] == db.txs[j]; }
      assert db1.txs[j].pg.value == key || Silent(db, db1, db1.txs[j].pg.value);
    }
    forall j | 0 <= j < |db1.ledger| && db1.ledger[j].what.PaymentNeedsRefund?
      ensures db1.ledger[j].what.tossKey in captured + {key}
    {
      if j < |db.ledger| { assert db1.ledger[j] == db.ledger[j]; }
      assert db1.ledger[j].what.tossKey == key || Silent(db, db1, db1.ledger[j].what.tossKey);
    }
  }

  /** Two finished payments never share a captured key. */
  ghost predicate KeysDistinct(payments: seq<Payment>) {
    forall i, j :: 0 <= i < j < |payments| && payments[i].phase.Done? && payments[j].phase.Done? && payments[i].phase.captured.Some? ==>
      payments[i].phase.captured != payments[j].phase.captured
  }

  lemma FinishKeepsRoute(route: Route, opening: seq<int>, i: nat, key: TossKey, receipt: Option<PaymentMethod>, now: int)
    requires RouteInv(route, opening) && KeysDistinct(route.payments) && Possible(route, Finish(i, Confirmed(key, receipt)))
    ensures var r := FinishConfirmed(route, i, key, receipt, now);
            RouteInv(r, opening) && KeysDistinct(r.payments)
  {
    hide Inv, BuyStep, IsReplay, Silent, Kept, KeysCaptured, Grows;
    var r := FinishConfirmed(route, i, key, receipt, now);
    FinishPlacesKey(route, opening, i, key, receipt, now);
    FinishKeepsInv(route, opening, i, key, receipt, now);
    FinishGrows(route, opening, i, key, receipt, now);
    CapturedGrow(route.db, r.db, route.captured, key);
    assert PayOk(route.db, route.captured, route.payments[i]);
    forall m | 0 <= m < |r.payments| ensures PayOk(r.db, r.captured, r.payments[m]) {
      assert PayOk(route.db, route.captured, route.payments[m]);
      if m != i { KeptStays(route.db, r.db, route.captured, r.captured, route.payments[m]); }
    }
    forall m | 0 <= m < |route.payments| && route.payments[m].phase.Done? ensures route.payments[m].phase.captured != Some(key) {
      assert PayOk(route.db, route.captured, route.payments[m]);
    }
  }

  lemma FinishGrows(route: Route, opening: seq<int>, i: nat, key: TossKey, receipt: Option<PaymentMethod>, now: int)
    requires RouteInv(route, opening) && Possible(route, Finish(i, Confirmed(key, receipt)))
    ensures var r := FinishConfirmed(route, i, key, receipt, now); route.db.txs <= r.db.txs && route.db.ledger <= r.db.ledger
  {
    hide Inv, BuyStep, IsReplay, PayOk;
    BuyKeepsInv(route.db, opening, Confirming(route.payments[i], key, receipt), route.payments[i].group, now);
  }

  /** Purchases outside the route carry no TossPayments key. */
  lemma OtherIsSilent(db: Db, opening: seq<int>, step: Step, now: int, key: TossKey)
    requires Inv(db, opening) && WellFormed(step) && !step.RefundNeeded? && (step.Buy? ==> step.purchase.pg.None?)
    ensures Silent(db, Apply(db, step, now).db, key)
  {
    hide Inv, BuyPrimary, BuyPrimaryGroup, OwnersKept, Bought;
    StepProgress(db, opening, step, now);
    if step.Buy? {
      PurchaseIsAtomic(db, step.purchase, step.group, now);
      var r := BuyStep(db, step.purchase, step.group, now);
      if r.result.Ok? && !IsReplay(db, step.purchase, step.group) {
        var amounts := PurchaseIsComplete(db, step.purchase, step.group, now);
        UnpaidIsSilent(db, r.db, step.purchase, step.group, amounts, key);
      }
    } else {
      hide Apply;
    }
  }

  lemma UnpaidIsSilent(db: Db, db1: Db, p: Purchase, group: bool, amounts: seq<int>, key: TossKey)
    requires Bought(db, db1, p, group, amounts) && p.pg == None
    ensures Silent(db, db1, key)
  {
    hide OrderTxs, OrderEntries, Allocated;
    OrderShape(p, group, amounts, |db.txs|);
  }

  lemma OtherKeepsRoute(route: Route, opening: seq<int>, step: Step, now: int)
    requires RouteInv(route, opening) && Possible(route, Other(step))
    ensures RouteInv(route.(db := Apply(route.db, step, now).db), opening)
  {
    hide Inv, Silent, PayOk, Apply;
    var db1 := Apply(route.db, step, now).db;
    StepKeeps(route.db, opening, step, now);
    forall k ensures Silent(route.db, db1, k) { OtherIsSilent(route.db, opening, step, now, k); }
    SilentKeepsCaptured(route.db, db1, route.captured);
    forall m | 0 <= m < |route.payments| ensures PayOk(db1, route.captured, route.payments[m]) {
      assert PayOk(route.db, route.captured, route.payments[m]);
      KeptStays(route.db, db1, route.captured, route.captured, route.payments[m]);
    }
  }

  lemma SilentKeepsCaptured(db: Db, db1: Db, captured: set<TossKey>)
    requires KeysCaptured(db, captured) && forall k :: Silent(db, db1, k)
    ensures KeysCaptured(db1, captured)
  {
    assert Silent(db, db1, "");
    forall j | 0 <= j < |db1.txs| && db1.txs[j].Primary? && db1.txs[j].pg.Some? ensures db1.txs[j].pg.value in captured {
      assert Silent(db, db1, db1.txs[j].pg.value);
      assert db1.txs[j] == db.txs[j];
    }
    forall j | 0 <= j < |db1.ledger| && db1.ledger[j].what.PaymentNeedsRefund? ensures db1.ledger[j].what.tossKey in captured {
      assert Silent(db, db1, db1.ledger[j].what.tossKey);
      assert db1.ledger[j] == db.ledger[j];
    }
  }

  lemma MismatchKeepsRoute(route: Route, opening: seq<int>, i: nat, key: TossKey, charged: int)
    requires RouteInv(route, opening) && KeysDistinct(route.payments) && Possible(route, Finish(i, Mismatched(key, charged)))
    ensures var r := FinishMismatched(route, i, key);
            RouteInv(r, opening) && KeysDistinct(r.payments) && Nowhere(r.db, key)
  {
    hide Inv, Kept, Nowhere;
    var r := FinishMismatched(route, i, key);
    FreshKeyNowhere(route.db, route.captured, key);
    forall m | 0 <= m < |r.payments| ensures PayOk(r.db, r.captured, r.payments[m]) {
      assert PayOk(route.db, route.captured, route.payments[m]);
      if m == i { MismatchIsKept(route, i, key); }
    }
    forall m | 0 <= m < |route.payments| && route.payments[m].phase.Done? ensures route.payments[m].phase.captured != Some(key) {
      assert PayOk(route.db, route.captured, route.payments[m]);
    }
  }

  lemma MismatchIsKept(route: Route, i: nat, key: TossKey)
    requires i < |route.payments| && PayOk(route.db, route.captured, route.payments[i]) && Nowhere(route.db, key)
    ensures PayOk(route.db, route.captured + {key}, route.payments[i].(phase := Done(AmountMismatch, Some(key))))
  {
    hide Nowhere;
  }

  /** Every step of the route keeps every captured key where its payment's ending says it is. */
  lemma ReactKeeps(route: Route, opening: seq<int>, event: Event, now: int)
    requires RouteInv(route, opening) && KeysDistinct(route.payments) && Possible(route, event)
    ensures RouteInv(React(route, event, now), opening) && KeysDistinct(React(route, event, now).payments)
  {
    hide Inv, Apply, Kept, KeysCaptured, FinishConfirmed;
    match event
    case Begin(p, group, tossKey) =>
      forall m | 0 <= m < |route.payments| ensures PayOk(route.db, route.captured, route.payments[m]) {}
      if AmountDue(route.db, p, group, now).Some? { AwaitingIsKept(route, p, group, tossKey, now); }
    case Finish(i, Refused) =>
      assert PayOk(route.db, route.captured, route.payments[i]);
      RefusedIsKept(route, i);
      var r := React(route, event, now);
      forall m | 0 <= m < |r.payments| ensures PayOk(route.db, route.captured, r.payments[m]) {
        assert PayOk(route.db, route.captured, route.payments[m]);
      }
    case Finish(i, Confirmed(key, receipt)) => FinishKeepsRoute(route, opening, i, key, receipt, now);
    case Finish(i, Mismatched(key, charged)) => MismatchKeepsRoute(route, opening, i, key, charged);
    case Other(step) => OtherKeepsRoute(route, opening, step, now);
  }

  lemma AwaitingIsKept(route: Route, p: Purchase, group: bool, tossKey: TossKey, now: int)
    requires Possible(route, Begin(p, group, tossKey)) && AmountDue(route.db, p, group, now).Some?
    ensures PayOk(route.db, route.captured, Payment(p, group, tossKey, AmountDue(route.db, p, group, now).value, Awaiting))
  {
  }

  lemma RefusedIsKept(route: Route, i: nat)
    requires i < |route.payments| && PayOk(route.db, route.captured, route.payments[i])
    ensures PayOk(route.db, route.captured, route.payments[i].(phase := Done(NotConfirmed, None)))
  {
  }

  // ------------------------------------------------------------------------------------ whole runs

  datatype Occasion = Occasion(event: Event, now: int)

  ghost predicate PossibleRun(route: Route, run: seq<Occasion>)
    decreases |run|
  {
    run != [] ==> Possible(route, run[0].event) && PossibleRun(React(route, run[0].event, run[0].now), run[1..])
  }

  ghost function RunRoute(route: Route, run: seq<Occasion>): Route
    requires PossibleRun(route, run)
    decreases |run|
  {
    if run == [] then route else RunRoute(React(route, run[0].event, run[0].now), run[1..])
  }

  lemma {:induction false} RunKeeps(route: Route, opening: seq<int>, run: seq<Occasion>)
    requires RouteInv(route, opening) && KeysDistinct(route.payments) && PossibleRun(route, run)
    ensures RouteInv(RunRoute(route, run), opening) && KeysDistinct(RunRoute(route, run).payments)
    decreases |run|
  {
    hide RouteInv, KeysDistinct, React;
    if run != [] {
      ReactKeeps(route, opening, run[0].event, run[0].now);
      RunKeeps(React(route, run[0].event, run[0].now), opening, run[1..]);
    }
  }

  /**
   In every interleaving, a captured key is afterwards in exactly one place unless its payment ended as a late
   replay or in an amount mismatch: on PRIMARY transactions for exactly the request's seats and the amount fixed at
   Begin, or in one refund notice for them.  The keys of those two endings are in neither.
   */
  lemma CapturedKeysArePlaced(route: Route, opening: seq<int>, run: seq<Occasion>, i: nat)
    requires RouteInv(route, opening) && KeysDistinct(route.payments) && PossibleRun(route, run)
    requires i < |RunRoute(route, run).payments|
    requires RunRoute(route, run).payments[i].phase.Done? && RunRoute(route, run).payments[i].phase.captured.Some?
    ensures var r := RunRoute(route, run);
            var pay, key := r.payments[i], r.payments[i].phase.captured.value;
            && (pay.phase.ending.Settled? ==> InTransactions(r.db, pay, key))
            && (pay.phase.ending.RefundLogged? ==> InRefundNotice(r.db, pay, key))
            && (pay.phase.ending.LateReplay? || pay.phase.ending.AmountMismatch? ==> Nowhere(r.db, key))
            && !pay.phase.ending.NotConfirmed?
            && !(InTransactions(r.db, pay, key) && InRefundNotice(r.db, pay, key))
  {
    RunKeeps(route, opening, run);
    hide Inv, RunRoute, PossibleRun;
    var r := RunRoute(route, run);
    assert PayOk(r.db, r.captured, r.payments[i]);
  }

  // ------------------------------------------------------------------------- when a key gets lost

  /** A ticket that was ever bought still has its event, zone and date. */
  lemma BoughtHasContext(db: Db, opening: seq<int>, j: nat)
    requires Inv(db, opening) && j < |db.txs| && db.txs[j].Primary?
    ensures CheckContext(db, db.txs[j].ticketId).None?
  {
    AllocatedSomewhere(db.txs, j);
    hide SeatsInv, MoneyInv, PoolsFit, PoolsCounted, Allocations;
    var id := db.txs[j].ticketId;
    assert Allocations(db.txs, id) > 0;
    assert HasPlace(id, db.events);
  }

  lemma {:induction false} AllocatedSomewhere(txs: seq<Transaction>, j: nat)
    requires j < |txs| && txs[j].Primary?
    ensures Allocations(txs, txs[j].ticketId) > 0
  {
    if j < |txs| - 1 {
      assert txs[..|txs| - 1][j] == txs[j];
      AllocatedSomewhere(txs[..|txs| - 1], j);
    }
  }

  lemma {:induction false} ContextsOfKey(db: Db, opening: seq<int>, from: nat, idem: Idempotency)
    requires Inv(db, opening) && from <= |db.txs|
    ensures CheckContexts(db, db.txs[from..], idem).None?
    decreases |db.txs| - from
  {
    hide Inv, CheckContext;
    if from < |db.txs| {
      assert db.txs[from..][0] == db.txs[from] && db.txs[from..][1..] == db.txs[from + 1..];
      ContextsOfKey(db, opening, from + 1, idem);
      if SameKey(db.txs[from], idem) { BoughtHasContext(db, opening, from); }
    }
  }

  /** In a reachable state a replay always answers: the tickets of the first order are still there. */
  lemma ReplayAnswers(db: Db, opening: seq<int>, p: Purchase, group: bool, now: int)
    requires Inv(db, opening) && (if group then NormalizeGroup(p.ticketIds).None? else |p.ticketIds| == 1)
    requires IsReplay(db, p, group)
    ensures BuyStep(db, p, group, now).result.Ok? <==> CheckBuyer(db, p).None?
  {
    hide Inv, CheckContext, AllocateSeats, Allocate, AssertPurchasable, SplitGroupAmount, NormalizeGroup, IdemOf, CheckBuyer;
    var first := FindReplay(db, IdemOf(p, group)).value.value;
    BoughtHasContext(db, opening, first);
    assert db.txs[0..] == db.txs;
    ContextsOfKey(db, opening, 0, IdemOf(p, group).value);
  }

  /**
   Exactly when the route loses a key whose amount was confirmed: the buyer is still allowed to buy, and the same
   request has already been allocated under its retry key while this one was waiting for the provider.
   */
  lemma LostExactlyOnLateReplay(route: Route, opening: seq<int>, i: nat, key: TossKey, receipt: Option<PaymentMethod>, now: int)
    requires RouteInv(route, opening) && Possible(route, Finish(i, Confirmed(key, receipt)))
    ensures var pay := route.payments[i];
            Nowhere(FinishConfirmed(route, i, key, receipt, now).db, key) <==>
              CheckBuyer(route.db, Confirming(pay, key, receipt)).None? && IsReplay(route.db, pay.purchase, pay.group)
  {
    hide Inv, BuyStep, FindReplay, CheckBuyer, KeysCaptured;
    var pay := route.payments[i];
    var p := Confirming(pay, key, receipt);
    assert PayOk(route.db, route.captured, pay);
    SameRequest(pay, key, receipt);
    FinishPlacesKey(route, opening, i, key, receipt, now);
    if IsReplay(route.db, p, pay.group) {
      ReplayAnswers(route.db, opening, p, pay.group, now);
    } else {
      assert pay.purchase.ticketIds != [];
    }
  }

  /**
   Exactly when the route loses a captured key, whatever the provider captured: the amount is not the one that was
   asked for, or the request is a late replay.
   */
  lemma LostExactlyWhen(route: Route, opening: seq<int>, i: nat, confirmation: Confirmation, now: int)
    requires RouteInv(route, opening) && Possible(route, Finish(i, confirmation)) && !confirmation.Refused?
    ensures var pay := route.payments[i];
            Nowhere(React(route, Finish(i, confirmation), now).db, confirmation.key) <==>
              || confirmation.Mismatched?
              || (CheckBuyer(route.db, Confirming(pay, confirmation.key, confirmation.receipt)).None?
                  && IsReplay(route.db, pay.purchase, pay.group))
  {
    hide Inv, PayOk, FinishConfirmed, CheckBuyer, IsReplay, KeysCaptured;
    match confirmation
    case Confirmed(key, receipt) => LostExactlyOnLateReplay(route, opening, i, key, receipt, now);
    case Mismatched(key, _) => FreshKeyNowhere(route.db, route.captured, key);
  }

  lemma SameRequest(pay: Payment, key: TossKey, receipt: Option<PaymentMethod>)
    ensures IdemOf(Confirming(pay, key, receipt), pay.group) == IdemOf(pay.purchase, pay.group)
  {
  }

  // -------------------------------------------------------------------------- an undisturbed payment

  /** Seats of an order are checked without claims, so the clock does not matter. */
  lemma {:induction false} GroupCheckIsTimeless(db: Db, ids: seq<TicketId>, userId: UserId, t0: int, t1: int)
    ensures CheckGroup(db, ids, userId, t0) == CheckGroup(db, ids, userId, t1)
  {
    if ids != [] {
      GroupCheckIsTimeless(db, ids[1..], userId, t0, t1);
    }
  }

  /** When the seat of the request can still be bought; an order of several seats does not depend on a claim. */
  predicate StillOpen(db: Db, p: Purchase, group: bool, now: int)
    requires group || |p.ticketIds| == 1
  {
    group || AssertPurchasable(db, p.ticketIds[0], p.userId, true, p.draftId, now).Ok?
  }

  /**
   What Begin lets through, Finish sells: if nothing touched the database while the provider was awaited, a confirmed
   payment settles exactly when its buyer may buy and the claim on its seat, if it needs one, has not lapsed.
   */
  lemma UndisturbedPaymentBuys(
    route: Route, p: Purchase, group: bool, tossKey: TossKey, begun: int, key: TossKey, receipt: Option<PaymentMethod>, now: int)
    requires Possible(route, Begin(p, group, tossKey)) && AmountDue(route.db, p, group, begun).Some?
    ensures var r, i := React(route, Begin(p, group, tossKey), begun), |route.payments|;
            && |r.payments| == i + 1 && r.db == route.db
            && (FinishConfirmed(r, i, key, receipt, now).payments[i].phase.ending.Settled? <==>
                  CheckBuyer(route.db, Confirming(r.payments[i], key, receipt)).None? && StillOpen(route.db, p, group, now))
  {
    hide AssertPurchasable, CheckBuyer, FindReplay, AllocateSeats, Allocate, SplitGroupAmount, PaidAmount;
    var r, i := React(route, Begin(p, group, tossKey), begun), |route.payments|;
    var pay := r.payments[i];
    SameRequest(pay, key, receipt);
    hide IdemOf;
    if group { GroupCheckIsTimeless(route.db, p.ticketIds, p.userId, begun, now); }
    hide CheckGroup, NormalizeGroup, OnePerformance;
  }

  // ------------------------------------------------------------------ a run that loses a captured key

  const SHOP_ZONE := Zone("z", "Z", 50000, 10, 1, Some(1))
  const SHOP_SEAT := TicketId("e", "d", "z", "Z-01")
  const SHOP_DB := Db(
    map[SHOP_SEAT := NewTicket(SHOP_ZONE)], [SHOP_SEAT], map["e" := Event("v", [SHOP_ZONE], ["d"], true)],
    [User(0, false, true)], [], [], [], [], [], [])
  const SHOP_ROUTE := Route(SHOP_DB, [], {})
  const SHOP_REQUEST := Purchase(0, [SHOP_SEAT], Some(CreditCard), None, Some("retry"), "CREDIT_CARD", None, true, None)

  /** One retry key, two TossPayments keys: both requests pass Begin before either is confirmed. */
  const LOSING_RUN := [
    Occasion(Begin(SHOP_REQUEST, false, "toss-1"), 0), Occasion(Begin(SHOP_REQUEST, false, "toss-2"), 0),
    Occasion(Finish(0, Confirmed("toss-1", Some(CreditCard))), 1), Occasion(Finish(1, Confirmed("toss-2", Some(CreditCard))), 2)]

  lemma ShopIsSound()
    ensures RouteInv(SHOP_ROUTE, [0]) && KeysDistinct(SHOP_ROUTE.payments)
  {
    ShopSeats();
    ShopResale();
    ShopMoney();
    ShopStock();
    hide SeatsInv, ResaleInv, MoneyInv, StockInv;
  }

  lemma ShopSeats()
    ensures SeatsInv(SHOP_DB)
  {
  }

  lemma ShopResale()
    ensures ResaleInv(SHOP_DB)
  {
  }

  lemma ShopMoney()
    ensures MoneyInv(SHOP_DB, [0])
  {
  }

  lemma ShopStock()
    ensures StockInv(SHOP_DB)
  {
    assert FindZone([SHOP_ZONE], "z") == Some(SHOP_ZONE);
    assert HasPlace(SHOP_SEAT, SHOP_DB.events);
  }

  const AFTER_BEGINS := Route(SHOP_DB,
    [Payment(SHOP_REQUEST, false, "toss-1", 52000, Awaiting), Payment(SHOP_REQUEST, false, "toss-2", 52000, Awaiting)], {})

  lemma ShopBegins()
    ensures AmountDue(SHOP_DB, SHOP_REQUEST, false, 0) == Some(52000)
  {
    assert FindZone([SHOP_ZONE], "z") == Some(SHOP_ZONE);
  }

  lemma FirstFinishSettles()
    ensures !IsReplay(SHOP_DB, SHOP_REQUEST, false)
    ensures BuyStep(SHOP_DB, Confirming(AFTER_BEGINS.payments[0], "toss-1", Some(CreditCard)), false, 1).result.Ok?
  {
    assert FindZone([SHOP_ZONE], "z") == Some(SHOP_ZONE);
  }

  const FIRST := Finish(0, Confirmed("toss-1", Some(CreditCard)))
  const SECOND := Finish(1, Confirmed("toss-2", Some(CreditCard)))

  ghost function AfterFirst(): Route {
    FinishConfirmed(AFTER_BEGINS, 0, "toss-1", Some(CreditCard), 1)
  }

  lemma SecondIsReplay()
    ensures IsReplay(AfterFirst().db, SHOP_REQUEST, false)
    ensures CheckBuyer(AfterFirst().db, Confirming(AFTER_BEGINS.payments[1], "toss-2", Some(CreditCard))).None?
    ensures Possible(AFTER_BEGINS, FIRST) && Possible(AfterFirst(), SECOND)
    ensures |AfterFirst().payments| == 2 && AfterFirst().payments[1] == AFTER_BEGINS.payments[1]
  {
    FirstFinishSettles();
    SameRequest(AFTER_BEGINS.payments[0], "toss-1", Some(CreditCard));
    var p := Confirming(AFTER_BEGINS.payments[0], "toss-1", Some(CreditCard));
    hide FindReplay, AssertPurchasable, PaidAmount;
    var amounts := PurchaseIsComplete(SHOP_DB, p, false, 1);
    FirstOrderFound(AfterFirst().db, p, amounts);
  }

  lemma FirstOrderFound(db: Db, p: Purchase, amounts: seq<int>)
    requires |amounts| == |p.ticketIds| == 1 && db.txs == OrderTxs(p, false, amounts, 0) && IdemOf(p, false).Some?
    ensures FindReplay(db, IdemOf(p, false)) == Ok(Some(0))
  {
    assert SameKey(db.txs[0], IdemOf(p, false).value);
  }

  lemma RunCons(route: Route, first: Occasion, rest: seq<Occasion>)
    requires Possible(route, first.event) && PossibleRun(React(route, first.event, first.now), rest)
    ensures PossibleRun(route, [first] + rest)
    ensures RunRoute(route, [first] + rest) == RunRoute(React(route, first.event, first.now), rest)
  {
    hide React, Possible;
    assert ([first] + rest)[1..] == rest;
  }

  lemma LosingRunUnfolds()
    ensures PossibleRun(SHOP_ROUTE, LOSING_RUN) && RunRoute(SHOP_ROUTE, LOSING_RUN) == React(AfterFirst(), SECOND, 2)
  {
    ShopBegins();
    SecondIsReplay();
    hide AmountDue, FinishConfirmed, PossibleRun, RunRoute, Confirming, IsReplay, CheckBuyer;
    var o0, o1, o2, o3 := LOSING_RUN[0], LOSING_RUN[1], Occasion(FIRST, 1), Occasion(SECOND, 2);
    var r1 := React(SHOP_ROUTE, o0.event, 0);
    assert React(r1, o1.event, 0) == AFTER_BEGINS;
    assert React(AFTER_BEGINS, FIRST, 1) == AfterFirst();
    NoMore(React(AfterFirst(), SECOND, 2));
    RunCons(AfterFirst(), o3, []);
    RunCons(AFTER_BEGINS, o2, [o3] + []);
    RunCons(r1, o1, [o2] + ([o3] + []));
    RunCons(SHOP_ROUTE, o0, [o1] + ([o2] + ([o3] + [])));
    assert LOSING_RUN == [o0] + ([o1] + ([o2] + ([o3] + [])));
  }

  lemma NoMore(route: Route)
    ensures PossibleRun(route, []) && RunRoute(route, []) == route
  {
  }

  /**
   A run from a sound database in which money is captured under two keys for one seat: the second key ends in no
   transaction and in no refund notice.
   */
  lemma CapturedKeyCanBeLost()
    ensures RouteInv(SHOP_ROUTE, [0]) && PossibleRun(SHOP_ROUTE, LOSING_RUN)
    ensures var r := RunRoute(SHOP_ROUTE, LOSING_RUN);
            |r.payments| == 2 && r.payments[1].phase == Done(LateReplay, Some("toss-2")) && Nowhere(r.db, "toss-2")
  {
    ShopIsSound();
    LosingRunUnfolds();
    SecondIsReplay();
    RouteInvAfterFirst();
    hide RouteInv, BuyStep, RunRoute, PossibleRun, AfterFirst, Nowhere, IsReplay, CheckBuyer;
    LostExactlyOnLateReplay(AfterFirst(), [0], 1, "toss-2", Some(CreditCard), 2);
    LostMeansLateReplay(AfterFirst(), [0], 1, Confirmed("toss-2", Some(CreditCard)), 2);
  }

  lemma RouteInvAfterFirst()
    ensures RouteInv(AfterFirst(), [0])
  {
    ShopIsSound();
    SecondIsReplay();
    hide RouteInv, FinishConfirmed, IsReplay, CheckBuyer;
    AfterBeginsSound();
    FinishKeepsRoute(AFTER_BEGINS, [0], 0, "toss-1", Some(CreditCard), 1);
  }

  lemma AfterBeginsSound()
    ensures RouteInv(AFTER_BEGINS, [0]) && KeysDistinct(AFTER_BEGINS.payments)
  {
    ShopIsSound();
    hide Inv;
  }

  /** A key that is recorded nowhere belongs to a payment that ended as a late replay or in an amount mismatch. */
  lemma LostMeansLateReplay(route: Route, opening: seq<int>, i: nat, confirmation: Confirmation, now: int)
    requires RouteInv(route, opening) && Possible(route, Finish(i, confirmation)) && !confirmation.Refused?
    ensures var r := React(route, Finish(i, confirmation), now);
            Nowhere(r.db, confirmation.key) <==>
              || r.payments[i].phase == Done(LateReplay, Some(confirmation.key))
              || r.payments[i].phase == Done(AmountMismatch, Some(confirmation.key))
  {
    hide Inv, BuyStep, FindReplay, CheckBuyer, KeysCaptured, IsReplay;
    assert PayOk(route.db, route.captured, route.payments[i]);
    match confirmation
    case Confirmed(key, receipt) => FinishPlacesKey(route, opening, i, key, receipt, now);
    case Mismatched(key, _) => FreshKeyNowhere(route.db, route.captured, key);
  }

  // ------------------------------------------------------------------ runs that lose no captured key

  predicate SameRetryKey(a: Option<Idempotency>, b: Option<Idempotency>) {
    a.Some? && b.Some? && a.value.group == b.value.group && a.value.userId == b.value.userId && a.value.key == b.value.key
  }

  function RetryKey(pay: Payment): Option<Idempotency> {
    IdemOf(pay.purchase, pay.group)
  }

  /**
   A retry key always carries the same request, its TossPayments key included, and the provider confirms the key and
   the amount it was asked about.
   */
  ghost predicate Disciplined(route: Route, event: Event) {
    match event
    case Begin(p, group, tossKey) =>
      forall j :: 0 <= j < |route.payments| && SameRetryKey(RetryKey(route.payments[j]), IdemOf(p, group)) ==> route.payments[j].tossKey == tossKey
    case Finish(i, confirmation) =>
      !confirmation.Mismatched?
      && (confirmation.Confirmed? && i < |route.payments| ==> confirmation.key == route.payments[i].tossKey)
    case Other(step) =>
      step.Buy? ==> forall j :: 0 <= j < |route.payments| ==> !SameRetryKey(RetryKey(route.payments[j]), IdemOf(step.purchase, step.group))
  }

  /** An order made under a payment's retry key was paid for under that payment's own TossPayments key. */
  ghost predicate KeysAgree(route: Route) {
    && (forall i, j :: 0 <= i < |route.payments| && 0 <= j < |route.payments|
                       && SameRetryKey(RetryKey(route.payments[i]), RetryKey(route.payments[j])) ==>
          route.payments[i].tossKey == route.payments[j].tossKey)
    && (forall t, j :: 0 <= t < |route.db.txs| && 0 <= j < |route.payments| && route.db.txs[t].Primary?
                       && SameRetryKey(route.db.txs[t].idem, RetryKey(route.payments[j])) ==>
          route.payments[j].tossKey in route.captured)
    && (forall j :: 0 <= j < |route.payments| && route.payments[j].phase.Done? ==>
          route.payments[j].phase.ending != LateReplay && route.payments[j].phase.ending != AmountMismatch)
  }

  lemma BeginAgrees(route: Route, p: Purchase, group: bool, tossKey: TossKey, now: int)
    requires KeysAgree(route) && Possible(route, Begin(p, group, tossKey)) && Disciplined(route, Begin(p, group, tossKey))
    ensures KeysAgree(React(route, Begin(p, group, tossKey), now))
  {
    hide CheckGroup, AssertPurchasable, IdemOf, OnePerformance;
    if AmountDue(route.db, p, group, now).Some? {
      assert FindReplay(route.db, IdemOf(p, group)) == Ok(None);
      assert forall t :: 0 <= t < |route.db.txs| && route.db.txs[t].Primary? ==> !SameRetryKey(route.db.txs[t].idem, IdemOf(p, group));
    }
  }

  lemma NewTxsAgree(route: Route, db1: Db)
    requires KeysAgree(route) && route.db.txs <= db1.txs
    requires forall t, j :: |route.db.txs| <= t < |db1.txs| && 0 <= j < |route.payments| && db1.txs[t].Primary? ==>
               !SameRetryKey(db1.txs[t].idem, RetryKey(route.payments[j]))
    ensures KeysAgree(route.(db := db1))
  {
    hide RetryKey, SameRetryKey;
    assert forall t :: 0 <= t < |route.db.txs| ==> db1.txs[t] == route.db.txs[t];
  }

  lemma OtherAgrees(route: Route, opening: seq<int>, step: Step, now: int)
    requires RouteInv(route, opening) && KeysAgree(route) && Possible(route, Other(step)) && Disciplined(route, Other(step))
    ensures KeysAgree(route.(db := Apply(route.db, step, now).db))
  {
    hide Inv, BuyPrimary, BuyPrimaryGroup, Bought, PayOk, KeysCaptured, OwnersKept, IdemOf, KeysAgree, IsReplay;
    StepProgress(route.db, opening, step, now);
    if step.Buy? {
      PurchaseIsAtomic(route.db, step.purchase, step.group, now);
      var r := BuyStep(route.db, step.purchase, step.group, now);
      if r.result.Ok? && !IsReplay(route.db, step.purchase, step.group) {
        var amounts := PurchaseIsComplete(route.db, step.purchase, step.group, now);
        BoughtUnderKey(route.db, r.db, step.purchase, step.group, amounts);
      }
      NewTxsAgree(route, r.db);
    } else {
      hide Apply;
      NewTxsAgree(route, Apply(route.db, step, now).db);
    }
  }

  lemma BoughtUnderKey(db: Db, db1: Db, p: Purchase, group: bool, amounts: seq<int>)
    requires Bought(db, db1, p, group, amounts)
    ensures db.txs <= db1.txs && forall t :: |db.txs| <= t < |db1.txs| ==> db1.txs[t].Primary? && db1.txs[t].idem == IdemOf(p, group)
  {
    hide Allocated, IdemOf;
  }

  lemma NoOrderNoReplay(db: Db, p: Purchase, group: bool)
    requires forall t :: 0 <= t < |db.txs| && db.txs[t].Primary? ==> !SameRetryKey(db.txs[t].idem, IdemOf(p, group))
    ensures !IsReplay(db, p, group)
  {
    hide IdemOf;
  }

  lemma FinishAgrees(route: Route, opening: seq<int>, i: nat, key: TossKey, receipt: Option<PaymentMethod>, now: int)
    requires RouteInv(route, opening) && KeysAgree(route)
    requires Possible(route, Finish(i, Confirmed(key, receipt))) && Disciplined(route, Finish(i, Confirmed(key, receipt)))
    ensures KeysAgree(FinishConfirmed(route, i, key, receipt, now))
  {
    hide Inv, BuyStep, IsReplay, Bought, PayOk, KeysCaptured, IdemOf;
    var pay := route.payments[i];
    var p := Confirming(pay, key, receipt);
    SameRequest(pay, key, receipt);
    KeyPresent(route, opening, i);
    NoOrderNoReplay(route.db, p, pay.group);
    PurchaseIsAtomic(route.db, p, pay.group, now);
    var reply := BuyStep(route.db, p, pay.group, now);
    if reply.result.Ok? {
      var amounts := PurchaseIsComplete(route.db, p, pay.group, now);
      BoughtUnderKey(route.db, reply.db, p, pay.group, amounts);
    }
  }

  lemma KeyPresent(route: Route, opening: seq<int>, i: nat)
    requires RouteInv(route, opening) && i < |route.payments|
    ensures RetryKey(route.payments[i]).Some?
  {
    hide Inv, KeysCaptured, Kept;
    assert PayOk(route.db, route.captured, route.payments[i]);
  }

  ghost predicate DisciplinedRun(route: Route, run: seq<Occasion>)
    requires PossibleRun(route, run)
    decreases |run|
  {
    run != [] ==> Disciplined(route, run[0].event) && DisciplinedRun(React(route, run[0].event, run[0].now), run[1..])
  }

  lemma ReactAgrees(route: Route, opening: seq<int>, event: Event, now: int)
    requires RouteInv(route, opening) && KeysAgree(route) && Possible(route, event) && Disciplined(route, event)
    ensures KeysAgree(React(route, event, now))
  {
    hide RouteInv, Apply, AmountDue, FinishConfirmed, IdemOf;
    match event
    case Begin(p, group, tossKey) => BeginAgrees(route, p, group, tossKey, now);
    case Finish(i, Refused) =>
    case Finish(i, Confirmed(key, receipt)) => FinishAgrees(route, opening, i, key, receipt, now);
    case Other(step) => OtherAgrees(route, opening, step, now);
  }

  lemma {:induction false} DisciplinedRunAgrees(route: Route, opening: seq<int>, run: seq<Occasion>)
    requires RouteInv(route, opening) && KeysDistinct(route.payments) && KeysAgree(route)
    requires PossibleRun(route, run) && DisciplinedRun(route, run)
    ensures KeysAgree(RunRoute(route, run))
    decreases |run|
  {
    hide RouteInv, KeysDistinct, KeysAgree, React, Disciplined;
    if run != [] {
      ReactKeeps(route, opening, run[0].event, run[0].now);
      ReactAgrees(route, opening, run[0].event, run[0].now);
      DisciplinedRunAgrees(React(route, run[0].event, run[0].now), opening, run[1..]);
    }
  }

  /**
   When a retry key always carries the same request and the provider confirms a key at most once and for the amount it
   was asked for, every captured key of a finished payment is in exactly one place: its order's transactions, or one
   refund notice.
   */
  lemma NoCapturedKeyIsLost(route: Route, opening: seq<int>, run: seq<Occasion>, i: nat)
    requires RouteInv(route, opening) && KeysDistinct(route.payments) && KeysAgree(route)
    requires PossibleRun(route, run) && DisciplinedRun(route, run)
    requires i < |RunRoute(route, run).payments|
    requires RunRoute(route, run).payments[i].phase.Done? && RunRoute(route, run).payments[i].phase.captured.Some?
    ensures var r := RunRoute(route, run);
            var pay, key := r.payments[i], r.payments[i].phase.captured.value;
            InTransactions(r.db, pay, key) != InRefundNotice(r.db, pay, key)
  {
    CapturedKeysArePlaced(route, opening, run, i);
    DisciplinedRunAgrees(route, opening, run);
    hide RouteInv, RunRoute, PossibleRun, DisciplinedRun;
  }
}
