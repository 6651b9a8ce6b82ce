/** What one purchase does: all of its seats or nothing, the exact amount approved, one order per retry key. */
module SaleOrders {
  import opened Prelude
  import opened SaleTypes
  import opened Holds
  import opened Commerce
  import opened SaleSteps
  import opened SaleInvariant
  import opened SaleSeats
  import opened SaleSales
  import opened SaleHandlers
  import opened SaleProgress

  // ------------------------------------------------------------------------------ splitting a total

  /** Every seat but the last gets its face value plus the same share; the last takes what is left. */
  lemma {:induction false} SplitPrefix(approved: int, faceValues: seq<int>, k: nat)
    requires k < |faceValues|
    ensures var share := (approved - Sum(faceValues)) / |faceValues|;
            Sum(SplitGroupAmount(Some(approved), faceValues)[..k]) == Sum(faceValues[..k]) + k * share
  {
    var r := SplitGroupAmount(Some(approved), faceValues);
    if k > 0 {
      SplitPrefix(approved, faceValues, k - 1);
      assert r[..k][..k - 1] == r[..k - 1];
      assert faceValues[..k][..k - 1] == faceValues[..k - 1];
    }
  }

  /** The amounts recorded for an order add up to exactly the approved total, whatever its sign and remainder. */
  lemma SplitIsExact(approved: int, faceValues: seq<int>)
    requires |faceValues| > 0
    ensures Sum(SplitGroupAmount(Some(approved), faceValues)) == approved
  {
    var n, r := |faceValues|, SplitGroupAmount(Some(approved), faceValues);
    SplitPrefix(approved, faceValues, n - 1);
    assert r[..n][..n - 1] == r[..n - 1] && faceValues[..n][..n - 1] == faceValues[..n - 1];
    assert r[..n] == r && faceValues[..n] == faceValues;
  }

  /** No seat's extra differs from another's by the number of seats or more, and the last seat's is never the smaller. */
  lemma SplitIsEven(approved: int, faceValues: seq<int>, i: nat)
    requires i < |faceValues|
    ensures var n, r := |faceValues|, SplitGroupAmount(Some(approved), faceValues);
            0 <= (r[n - 1] - faceValues[n - 1]) - (r[i] - faceValues[i]) < n
  {
    var n := |faceValues|;
    var extra := approved - Sum(faceValues);
    var share := extra / n;
    assert extra == n * share + extra % n;
    assert share * (n - 1) == n * share - share by { Distribute(share, n); }
  }

  lemma Distribute(a: int, n: int)
    ensures a * (n - 1) == n * a - a
  {
  }

  /** When no seat was repriced since the total was fixed, each seat is recorded at face value plus the service fee. */
  lemma SplitWithoutRepricing(faceValues: seq<int>, i: nat)
    requires i < |faceValues|
    ensures var total := Sum(faceValues) + |faceValues| * SERVICE_FEE_PER_SEAT;
            SplitGroupAmount(Some(total), faceValues)[i] == faceValues[i] + SERVICE_FEE_PER_SEAT
  {
    var n := |faceValues|;
    assert (n * SERVICE_FEE_PER_SEAT) / n == SERVICE_FEE_PER_SEAT;
    Distribute(SERVICE_FEE_PER_SEAT, n);
  }

  // ---------------------------------------------------------------------------- what a purchase does

  /** The transactions of one order, one per seat in the order's own sequence. */
  function OrderTxs(p: Purchase, group: bool, amounts: seq<int>, order: nat): seq<Transaction>
    requires |amounts| == |p.ticketIds|
  {
    seq(|amounts|, i requires 0 <= i < |amounts| => Primary(p.ticketIds[i], p.userId, amounts[i], p.pg, IdemOf(p, group), order))
  }

  function OrderEntries(p: Purchase, amounts: seq<int>): seq<LedgerEntry>
    requires |amounts| == |p.ticketIds|
  {
    seq(|amounts|, i requires 0 <= i < |amounts| => LedgerEntry(ByUser(p.userId), PrimaryPurchase(p.ticketIds[i], amounts[i])))
  }

  /** Every requested seat became the buyer's and was recorded; no other ticket changed. */
  ghost predicate Bought(db: Db, r: Db, p: Purchase, group: bool, amounts: seq<int>) {
    && |amounts| == |p.ticketIds|
    && (forall id :: id in p.ticketIds ==>
          id in db.tickets && Unsold(db.tickets[id].status)
          && id in r.tickets && r.tickets[id] == Allocated(db.tickets[id], p.userId))
    && (forall id :: id in db.tickets && id !in p.ticketIds ==> id in r.tickets && r.tickets[id] == db.tickets[id])
    && r.tickets.Keys == db.tickets.Keys
    && r.txs == db.txs + OrderTxs(p, group, amounts, |db.txs|)
    && r.ledger == db.ledger + OrderEntries(p, amounts)
    && (p.approved.Some? ==> Sum(amounts) == p.approved.value)
  }

  predicate IsReplay(db: Db, p: Purchase, group: bool) {
    FindReplay(db, IdemOf(p, group)).Ok? && FindReplay(db, IdemOf(p, group)).value.Some?
  }

  lemma BuyOneOutcome(db: Db, p: Purchase, now: int) returns (amounts: seq<int>)
    requires |p.ticketIds| == 1 && BuyPrimary(db, p, now).result.Ok? && !IsReplay(db, p, false)
    ensures Bought(db, BuyPrimary(db, p, now).db, p, false, amounts)
  {
    var id := p.ticketIds[0];
    var claim := AssertPurchasable(db, id, p.userId, p.allowHold, p.draftId, now).value;
    PurchasableIsClaimOk(db, id, p.userId, p.allowHold, p.draftId, now);
    amounts := [PaidAmount(db, id, claim, p.approved)];
    hide FindReplay, IdemOf, AssertPurchasable, Allocated;
    assert p.ticketIds == [id] && amounts[..0] == [] && Sum(amounts) == amounts[0];
    assert OrderTxs(p, false, amounts, |db.txs|) == [Primary(id, p.userId, amounts[0], p.pg, IdemOf(p, false), |db.txs|)];
    assert OrderEntries(p, amounts) == [LedgerEntry(ByUser(p.userId), PrimaryPurchase(id, amounts[0]))];
  }

  lemma BuyGroupOutcome(db: Db, p: Purchase, now: int) returns (amounts: seq<int>)
    requires BuyPrimaryGroup(db, p, now).result.Ok? && !IsReplay(db, p, true)
    ensures Bought(db, BuyPrimaryGroup(db, p, now).db, p, true, amounts)
    ensures |p.ticketIds| > 0 && amounts == SplitGroupAmount(p.approved, FaceValues(db.tickets, p.ticketIds))
  {
    hide FindReplay, IdemOf, Allocated, AllocateSeats, SplitGroupAmount, AssertPurchasable;
    CheckGroupFindsTickets(db, p.ticketIds, p.userId, now);
    amounts := SplitGroupAmount(p.approved, FaceValues(db.tickets, p.ticketIds));
    AllocateSeatsRecords(db, p, amounts, |p.ticketIds|);
    AllocateSeatsTickets(db, p, amounts, |p.ticketIds|);
    assert p.ticketIds[..|p.ticketIds|] == p.ticketIds;
    assert OrderTxs(p, true, amounts, |db.txs|) == GroupTxs(p, amounts, |db.txs|, |p.ticketIds|);
    assert OrderEntries(p, amounts) == GroupEntries(p, amounts, |p.ticketIds|);
    if p.approved.Some? { SplitIsExact(p.approved.value, FaceValues(db.tickets, p.ticketIds)); }
  }

  function BuyStep(db: Db, p: Purchase, group: bool, now: int): Reply
    requires group || |p.ticketIds| == 1
  {
    if group then BuyPrimaryGroup(db, p, now) else BuyPrimary(db, p, now)
  }

  /** A purchase that throws, or that repeats an earlier one, leaves the database exactly as it was. */
  lemma PurchaseIsAtomic(db: Db, p: Purchase, group: bool, now: int)
    requires group || |p.ticketIds| == 1
    ensures var r := BuyStep(db, p, group, now);
            r.result.Err? || IsReplay(db, p, group) ==> r.db == db
  {
    hide AllocateSeats, Allocate, SplitGroupAmount, AssertPurchasable;
  }

  /** A purchase that succeeds for the first time allocates every seat it asked for, for exactly the approved amount. */
  lemma PurchaseIsComplete(db: Db, p: Purchase, group: bool, now: int) returns (amounts: seq<int>)
    requires group || |p.ticketIds| == 1
    requires BuyStep(db, p, group, now).result.Ok? && !IsReplay(db, p, group)
    ensures Bought(db, BuyStep(db, p, group, now).db, p, group, amounts)
  {
    hide BuyPrimary, BuyPrimaryGroup, IsReplay, Bought;
    if group { amounts := BuyGroupOutcome(db, p, now); } else { amounts := BuyOneOutcome(db, p, now); }
  }

  /**
   When the seats still cost what they cost when the total was fixed, every seat of a group order is recorded at its
   own face value plus the service fee.
   */
  lemma UnrepricedSeatsPayFaceAndFee(db: Db, p: Purchase, now: int, i: nat)
    requires BuyPrimaryGroup(db, p, now).result.Ok? && !IsReplay(db, p, true)
    requires i < |p.ticketIds| && forall id :: id in p.ticketIds ==> id in db.tickets
    requires p.approved == Some(Sum(FaceValues(db.tickets, p.ticketIds)) + |p.ticketIds| * SERVICE_FEE_PER_SEAT)
    ensures var r := BuyPrimaryGroup(db, p, now).db;
            |r.txs| == |db.txs| + |p.ticketIds| && r.txs[|db.txs| + i].Primary?
            && r.txs[|db.txs| + i].ticketId == p.ticketIds[i]
            && r.txs[|db.txs| + i].amount == db.tickets[p.ticketIds[i]].faceValue + SERVICE_FEE_PER_SEAT
  {
    hide BuyPrimaryGroup, IsReplay, IdemOf, Allocated, SplitGroupAmount;
    var amounts := BuyGroupOutcome(db, p, now);
    SplitWithoutRepricing(FaceValues(db.tickets, p.ticketIds), i);
  }

  // ------------------------------------------------------------------------------ one order per key

  /** All transactions under one (kind, user, key) belong to one order for one request. */
  ghost predicate OneOrderPerKey(txs: seq<Transaction>) {
    forall i, j :: 0 <= i < |txs| && 0 <= j < |txs| && txs[j].Primary? && txs[j].idem.Some? && SameKey(txs[i], txs[j].idem.value) ==>
      txs[i].order == txs[j].order && txs[i].idem == txs[j].idem
  }

  lemma NewOrderKeepsKeys(txs: seq<Transaction>, p: Purchase, group: bool, amounts: seq<int>)
    requires OneOrderPerKey(txs) && |amounts| == |p.ticketIds|
    requires IdemOf(p, group).Some? ==> FindKey(txs, IdemOf(p, group).value).None?
    ensures OneOrderPerKey(txs + OrderTxs(p, group, amounts, |txs|))
  {
    hide IdemOf;
  }

  lemma OtherTxsKeepKeys(txs: seq<Transaction>, txs1: seq<Transaction>)
    requires OneOrderPerKey(txs) && txs <= txs1
    requires forall i :: |txs| <= i < |txs1| ==> !txs1[i].Primary?
    ensures OneOrderPerKey(txs1)
  {
  }

  /** However often a retry key comes back, it buys at most one order. */
  lemma StepKeepsKeys(db: Db, opening: seq<int>, step: Step, now: int)
    requires Inv(db, opening) && WellFormed(step) && OneOrderPerKey(db.txs)
    ensures OneOrderPerKey(Apply(db, step, now).db.txs)
  {
    hide Inv, BuyPrimary, BuyPrimaryGroup, OneOrderPerKey;
    if step.Buy? {
      PurchaseIsAtomic(db, step.purchase, step.group, now);
      var r := BuyStep(db, step.purchase, step.group, now);
      if r.result.Ok? && !IsReplay(db, step.purchase, step.group) {
        var amounts := PurchaseIsComplete(db, step.purchase, step.group, now);
        FreshKey(db, step.purchase, step.group, now);
        NewOrderKeepsKeys(db.txs, step.purchase, step.group, amounts);
      }
    } else {
      StepProgress(db, opening, step, now);
      hide Apply;
      OtherTxsKeepKeys(db.txs, Apply(db, step, now).db.txs);
    }
  }

  lemma FreshKey(db: Db, p: Purchase, group: bool, now: int)
    requires group || |p.ticketIds| == 1
    requires BuyStep(db, p, group, now).result.Ok? && !IsReplay(db, p, group)
    ensures IdemOf(p, group).Some? ==> FindKey(db.txs, IdemOf(p, group).value).None?
  {
    hide IdemOf, AllocateSeats, Allocate, SplitGroupAmount, AssertPurchasable;
  }
}
