/**
 The mobile gate and the sale handlers on one database: tokens live beside it, an accepted scan admits the ticket in it,
 and between the issue of a code and its scan any handler may run.
 */
module GateRuns {
  import opened Prelude
  import opened SaleTypes
  import opened Commerce
  import opened SaleSteps
  import opened SaleInvariant
  import opened SaleHandlers
  import opened SaleProgress
  import opened SaleOwners
  import opened PaymentRoute
  import opened PosterUpload
  import M = MobileQr

  datatype Gate = Gate(db: Db, tokens: seq<M.Token>)

  datatype Act =
    | Sale(step: Step)
    | Show(userId: UserId, id: TicketId, trustedDevice: bool, nonce: nat)
    | Withdraw(userId: UserId, id: TicketId)
    | Scan(code: M.Code)

  /** What the codes see of a ticket. */
  function View(tickets: Tickets): map<TicketId, M.Ticket> {
    map id | id in tickets :: M.Ticket(tickets[id].ownerId, Standing(tickets[id].status))
  }

  function Standing(status: TicketStatus): M.TicketStatus {
    if status == Owned then M.Owned else if status == Admitted then M.Admitted else M.Unavailable
  }

  function Desk(g: Gate): M.State { M.State(g.tokens, View(g.db.tickets)) }

  /** Admission is the gate's own step here. */
  ghost predicate Possible(act: Act) { act.Sale? ==> WellFormed(act.step) && !act.step.Admit? }

  ghost function React(g: Gate, sign: M.Payload -> M.Signature, act: Act, now: int): Gate
    requires Possible(act)
  {
    match act
    case Sale(step) => g.(db := Apply(g.db, step, now).db)
    case Show(u, id, trusted, nonce) => g.(tokens := M.Issue(Desk(g), sign, u, id, trusted, nonce, now).state.tokens)
    case Withdraw(u, id) => g.(tokens := M.Revoke(Desk(g), u, id).state.tokens)
    case Scan(code) =>
      var r := M.VerifyGate(Desk(g), sign, code, now);
      Gate(if r.result.Ok? then AdmitAtGate(g.db, code.payload.ticketId).db else g.db, r.state.tokens)
  }

  /** The step the codes go through, given what the sale handlers do to tickets. */
  ghost function CodeStep(g: Gate, sign: M.Payload -> M.Signature, act: Act, now: int): M.Step
    requires Possible(act)
  {
    match act
    case Sale(_) => M.Elsewhere(View(React(g, sign, act, now).db.tickets))
    case Show(u, id, trusted, nonce) => M.IssueStep(u, id, trusted, nonce)
    case Withdraw(u, id) => M.RevokeStep(u, id)
    case Scan(code) => M.Scan(code)
  }

  /** The gate's effect on the ticket is the sale handlers' admission. */
  lemma StepProjects(g: Gate, sign: M.Payload -> M.Signature, act: Act, now: int)
    requires Possible(act)
    ensures Desk(React(g, sign, act, now)) == M.Apply(Desk(g), sign, CodeStep(g, sign, act, now), now).state
  {
    hide Apply, M.RevokeValid, WellFormed;
    if act.Scan? {
      var r := M.VerifyGate(Desk(g), sign, act.code, now);
      if r.result.Ok? { assert View(React(g, sign, act, now).db.tickets) == r.state.tickets; }
    }
  }

  datatype Turn = Turn(act: Act, now: int)

  ghost predicate PossibleRun(turns: seq<Turn>) {
    forall k {:trigger Possible(turns[k].act)} :: 0 <= k < |turns| ==> Possible(turns[k].act)
  }

  ghost predicate Timely(turns: seq<Turn>, start: int) {
    && (forall k :: 0 <= k < |turns| ==> start <= turns[k].now)
    && (forall j, k :: 0 <= j < k < |turns| ==> turns[j].now <= turns[k].now)
  }

  ghost function GateAt(g: Gate, sign: M.Payload -> M.Signature, turns: seq<Turn>, n: nat): Gate
    requires PossibleRun(turns) && n <= |turns|
  {
    if n == 0 then g
    else
      assert Possible(turns[n - 1].act);
      React(GateAt(g, sign, turns, n - 1), sign, turns[n - 1].act, turns[n - 1].now)
  }

  ghost function CodeTurn(g: Gate, sign: M.Payload -> M.Signature, turns: seq<Turn>, k: nat): M.Turn
    requires PossibleRun(turns) && k < |turns|
  {
    assert Possible(turns[k].act);
    M.Turn(CodeStep(GateAt(g, sign, turns, k), sign, turns[k].act, turns[k].now), turns[k].now)
  }

  ghost function CodeTurns(g: Gate, sign: M.Payload -> M.Signature, turns: seq<Turn>): seq<M.Turn>
    requires PossibleRun(turns)
  {
    seq(|turns|, k requires 0 <= k < |turns| => CodeTurn(g, sign, turns, k))
  }

  lemma {:induction false} RunProjects(g: Gate, sign: M.Payload -> M.Signature, turns: seq<Turn>, n: nat)
    requires PossibleRun(turns) && n <= |turns|
    ensures Desk(GateAt(g, sign, turns, n)) == M.After(Desk(g), sign, CodeTurns(g, sign, turns), n)
  {
    hide React, CodeStep, M.Apply, Possible, Desk;
    if n > 0 {
      RunProjects(g, sign, turns, n - 1);
      assert Possible(turns[n - 1].act);
      StepProjects(GateAt(g, sign, turns, n - 1), sign, turns[n - 1].act, turns[n - 1].now);
    }
  }

  /** A sound database in which tickets and transactions agree on every owner, and tokens as the codes keep them. */
  ghost predicate GateSound(g: Gate, sign: M.Payload -> M.Signature, opening: seq<int>, start: int) {
    Inv(g.db, opening) && Recorded(g.db) && M.Inv(Desk(g), sign, start)
  }

  lemma StepKeepsDb(g: Gate, sign: M.Payload -> M.Signature, opening: seq<int>, act: Act, now: int)
    requires Inv(g.db, opening) && Recorded(g.db) && Possible(act)
    ensures var r := React(g, sign, act, now).db; Inv(r, opening) && Recorded(r) && g.db.txs <= r.txs
  {
    hide Inv, Recorded, Apply, AdmitAtGate, WellFormed, View;
    match act
    case Sale(step) => SaleKeepsDb(g.db, opening, step, now);
    case Scan(code) =>
      if code.Code? {
        AdmitIsStep(g.db, code.payload.ticketId, now);
        SaleKeepsDb(g.db, opening, Admit(code.payload.ticketId), now);
      }
    case _ =>
  }

  lemma SaleKeepsDb(db: Db, opening: seq<int>, step: Step, now: int)
    requires Inv(db, opening) && Recorded(db) && WellFormed(step)
    ensures var r := Apply(db, step, now).db; Inv(r, opening) && Recorded(r) && db.txs <= r.txs
  {
    hide Inv, Recorded, Apply, OwnersKept, WellFormed;
    StepKeeps(db, opening, step, now);
    StepRecords(db, opening, step, now);
    StepProgress(db, opening, step, now);
  }

  lemma AdmitIsStep(db: Db, id: TicketId, now: int)
    ensures WellFormed(Admit(id)) && Apply(db, Admit(id), now) == AdmitAtGate(db, id)
  {
    hide AdmitAtGate;
  }

  lemma {:induction false} RunKeepsDb(g: Gate, sign: M.Payload -> M.Signature, opening: seq<int>, turns: seq<Turn>, n: nat, m: nat)
    requires Inv(g.db, opening) && Recorded(g.db) && PossibleRun(turns) && n <= m <= |turns|
    ensures Inv(GateAt(g, sign, turns, m).db, opening) && Recorded(GateAt(g, sign, turns, m).db)
    ensures GateAt(g, sign, turns, n).db.txs <= GateAt(g, sign, turns, m).db.txs
  {
    hide Inv, Recorded, React, Possible;
    if m > 0 {
      RunKeepsDb(g, sign, opening, turns, if n < m then n else m - 1, m - 1);
      assert Possible(turns[m - 1].act);
      StepKeepsDb(GateAt(g, sign, turns, m - 1), sign, opening, turns[m - 1].act, turns[m - 1].now);
    }
  }

  /** Turn `n` shows the ticket's owner code `i`. */
  ghost predicate Shows(g: Gate, sign: M.Payload -> M.Signature, turns: seq<Turn>, n: nat, i: nat)
    requires PossibleRun(turns) && n < |turns|
  {
    var act := turns[n].act;
    act.Show? && M.Issue(Desk(GateAt(g, sign, turns, n)), sign, act.userId, act.id, act.trustedDevice, act.nonce, turns[n].now).result == Ok(i)
  }

  ghost predicate LetsIn(g: Gate, sign: M.Payload -> M.Signature, turns: seq<Turn>, m: nat, i: nat)
    requires PossibleRun(turns) && m < |turns|
  {
    turns[m].act.Scan? && M.VerifyGate(Desk(GateAt(g, sign, turns, m)), sign, turns[m].act.code, turns[m].now).result == Ok(i)
  }

  lemma ShowProjects(g: Gate, sign: M.Payload -> M.Signature, turns: seq<Turn>, n: nat, i: nat)
    requires PossibleRun(turns) && n < |turns| && Shows(g, sign, turns, n, i)
    ensures var codes := CodeTurns(g, sign, turns);
            && codes[n].step.IssueStep? && codes[n].step.id == turns[n].act.id && codes[n].step.userId == turns[n].act.userId
            && M.Issues(Desk(g), sign, codes, n, i)
  {
    hide M.After, GateAt, M.Issue, React, Desk, Apply, WellFormed;
    RunProjects(g, sign, turns, n);
  }

  lemma ScanProjects(g: Gate, sign: M.Payload -> M.Signature, turns: seq<Turn>, m: nat, i: nat)
    requires PossibleRun(turns) && m < |turns| && LetsIn(g, sign, turns, m, i)
    ensures M.Accepts(Desk(g), sign, CodeTurns(g, sign, turns), m, i)
  {
    hide M.After, GateAt, M.VerifyGate, React, Desk, Apply, WellFormed;
    RunProjects(g, sign, turns, m);
  }

  lemma TimelyProjects(g: Gate, sign: M.Payload -> M.Signature, turns: seq<Turn>, start: int)
    requires PossibleRun(turns) && Timely(turns, start)
    ensures M.Timely(CodeTurns(g, sign, turns), start)
  {
    hide GateAt, CodeStep;
  }

  /**
   Whom the gate lets in, in terms of what was sold.  The code it accepts was issued to the ticket's owner; since then
   the ticket has only been matched or given back by a reversal; and the code is the present owner's if and only if
   there has been no such transaction, or the last one hands the ticket to the code's own user again.
   */
  lemma LetsInOwnerIffNotResold(
    g: Gate, sign: M.Payload -> M.Signature, opening: seq<int>, turns: seq<Turn>, start: int, n: nat, m: nat, i: nat)
    requires GateSound(g, sign, opening, start) && PossibleRun(turns) && Timely(turns, start) && n < m < |turns|
    requires Shows(g, sign, turns, n, i) && LetsIn(g, sign, turns, m, i)
    ensures var before, scanned, id := GateAt(g, sign, turns, n).db, GateAt(g, sign, turns, m), turns[n].act.id;
            && before.txs <= scanned.db.txs && i < |scanned.tokens| && scanned.tokens[i].userId == turns[n].act.userId
            && scanned.tokens[i].ticketId == id && OwnerNow(before.tickets, id) == Some(turns[n].act.userId)
            && var since := scanned.db.txs[|before.txs|..];
               && (forall j :: 0 <= j < |since| && Recipient(since[j], id).Some? ==> since[j].Resale? || since[j].Refund?)
               && (OwnerNow(scanned.db.tickets, id) == Some(scanned.tokens[i].userId) <==>
                     RecordedOwner(since, id) == None || RecordedOwner(since, id) == Some(scanned.tokens[i].userId))
  {
    var before, scanned, id := GateAt(g, sign, turns, n).db, GateAt(g, sign, turns, m), turns[n].act.id;
    ShowProjects(g, sign, turns, n, i);
    ScanProjects(g, sign, turns, m, i);
    TimelyProjects(g, sign, turns, start);
    RunProjects(g, sign, turns, n);
    RunProjects(g, sign, turns, m);
    RunKeepsDb(g, sign, opening, turns, n, n);
    RunKeepsDb(g, sign, opening, turns, n, m);
    M.IssuedStaysIssued(Desk(g), sign, CodeTurns(g, sign, turns), start, n, m, i);
    hide M.After, GateAt, M.Issues, M.Accepts, M.Inv, M.Timely, Shows, LetsIn, CodeTurns, PossibleRun, Timely, GateSound;
    SinceIssue(before, scanned.db, opening, id);
  }

  lemma SinceIssue(a: Db, b: Db, opening: seq<int>, id: TicketId)
    requires Inv(a, opening) && Recorded(a) && Inv(b, opening) && Recorded(b) && a.txs <= b.txs && OwnerNow(a.tickets, id).Some?
    ensures var since := b.txs[|a.txs|..];
            && (forall j :: 0 <= j < |since| && Recipient(since[j], id).Some? ==> since[j].Resale? || since[j].Refund?)
            && OwnerNow(b.tickets, id) == if RecordedOwner(since, id).Some? then RecordedOwner(since, id) else OwnerNow(a.tickets, id)
  {
    var since := b.txs[|a.txs|..];
    assert b.txs == a.txs + since;
    RecordedAppend(a.txs, since, id);
    OnceAllocated(a, opening, id);
    OnceAllocated(b, opening, id);
    hide Inv, Allocations;
    forall j | 0 <= j < |since| && Recipient(since[j], id).Some? ensures since[j].Resale? || since[j].Refund? {
      AllocatedThenOnlyResold(a.txs, b.txs, id, |a.txs| + j);
    }
  }

  lemma OnceAllocated(db: Db, opening: seq<int>, id: TicketId)
    requires Inv(db, opening)
    ensures Allocations(db.txs, id) == if OwnerNow(db.tickets, id).Some? then 1 else 0
  {
    hide SeatsInv, MoneyInv, StockInv, PoolsFit, PoolsCounted;
  }

  // -------------------------------------------------------------------- a code that outlives its sale

  const DOOR := SHOP_SOLD.(users := SHOP_SOLD.users + [User(0, false, true)])

  function DoorTurns(sign: M.Payload -> M.Signature): seq<Turn> {
    var payload := M.Payload(0, SHOP_SEAT, M.QR_TTL_MS, 7);
    [Turn(Show(0, SHOP_SEAT, true, 7), 0), Turn(Sale(List(0, SHOP_SEAT, Some(25000))), 1000),
     Turn(Sale(BuyResale(1, 0, Some(CreditCard))), 5000), Turn(Scan(M.Code(payload, sign(payload))), 10000)]
  }

  const LISTED := ListForResale(DOOR, 0, SHOP_SEAT, Some(25000)).db

  const RESOLD := PurchaseResale(LISTED, 1, 0, Some(CreditCard)).db

  lemma DoorKeepsInv()
    ensures Inv(DOOR, [0]) && Inv(LISTED, [0])
  {
    hide Inv, ListForResale;
    ShopIsSound();
    SeatIsBought();
    BuyPrimaryKeeps(SHOP_DB, [0], SHOP_REQUEST.(key := None), 0);
    AddUserKeeps(SHOP_SOLD, [0], User(0, false, true));
    ListForResaleKeeps(DOOR, [0], 0, SHOP_SEAT, Some(25000));
  }

  lemma DoorIsSound(sign: M.Payload -> M.Signature)
    ensures GateSound(Gate(DOOR, []), sign, [0], 0)
  {
    DoorKeepsInv();
    DoorIsRecorded();
    hide Inv, Recorded;
  }

  lemma DoorIsRecorded()
    ensures Recorded(DOOR)
  {
    assert DOOR.txs == [SHOP_SALE] && DOOR.txs[..0] == [];
  }

  lemma SeatIsListed()
    ensures SHOP_SEAT in LISTED.tickets && LISTED.tickets[SHOP_SEAT].status == InResalePool && LISTED.tickets[SHOP_SEAT].ownerId == Some(0)
    ensures |LISTED.pools| == 1 && LISTED.pools[0].status == Open && LISTED.pools[0].ticketId == SHOP_SEAT
  {
    SoldTicket();
  }

  lemma SeatIsResold()
    ensures ListForResale(DOOR, 0, SHOP_SEAT, Some(25000)).result == Ok(0)
    ensures PurchaseResale(LISTED, 1, 0, Some(CreditCard)).result == Ok(0)
    ensures SHOP_SEAT in DOOR.tickets && DOOR.tickets[SHOP_SEAT].ownerId == Some(0) && DOOR.tickets[SHOP_SEAT].status == Owned
    ensures SHOP_SEAT in RESOLD.tickets && RESOLD.tickets[SHOP_SEAT].ownerId == Some(1) && RESOLD.tickets[SHOP_SEAT].status == Owned
  {
    SoldTicket();
  }

  lemma RunGoesOn(g: Gate, sign: M.Payload -> M.Signature, turns: seq<Turn>, n: nat)
    requires PossibleRun(turns) && n < |turns|
    ensures Possible(turns[n].act) && GateAt(g, sign, turns, n + 1) == React(GateAt(g, sign, turns, n), sign, turns[n].act, turns[n].now)
  {
    hide React;
    assert Possible(turns[n].act);
  }

  lemma DoorStates(sign: M.Payload -> M.Signature)
    ensures PossibleRun(DoorTurns(sign))
    ensures var g, turns, token := Gate(DOOR, []), DoorTurns(sign), M.SignedToken(sign, 0, SHOP_SEAT, 0, 7, 0);
            GateAt(g, sign, turns, 0) == g && GateAt(g, sign, turns, 3) == Gate(RESOLD, [token])
  {
    SeatIsResold();
    hide ListForResale, PurchaseResale;
    var g, turns, token := Gate(DOOR, []), DoorTurns(sign), M.SignedToken(sign, 0, SHOP_SEAT, 0, 7, 0);
    assert M.RevokeValid([], SHOP_SEAT, None) == [];
    assert React(g, sign, turns[0].act, turns[0].now) == Gate(DOOR, [token]);
    assert React(Gate(DOOR, [token]), sign, turns[1].act, turns[1].now) == Gate(LISTED, [token]);
    assert React(Gate(LISTED, [token]), sign, turns[2].act, turns[2].now) == Gate(RESOLD, [token]);
    hide React, M.SignedToken;
    RunGoesOn(g, sign, turns, 0);
    RunGoesOn(g, sign, turns, 1);
    RunGoesOn(g, sign, turns, 2);
  }

  /**
   It does happen: the owner is shown a code, lists the ticket, sells it directly, and within twenty seconds of the
   code's issue the gate lets its former owner in.
   */
  lemma FormerOwnerCanBeAdmitted(sign: M.Payload -> M.Signature)
    ensures GateSound(Gate(DOOR, []), sign, [0], 0) && PossibleRun(DoorTurns(sign)) && Timely(DoorTurns(sign), 0)
    ensures Shows(Gate(DOOR, []), sign, DoorTurns(sign), 0, 0) && LetsIn(Gate(DOOR, []), sign, DoorTurns(sign), 3, 0)
    ensures var scanned := GateAt(Gate(DOOR, []), sign, DoorTurns(sign), 3);
            |scanned.tokens| == 1 && scanned.tokens[0].userId == 0 && OwnerNow(scanned.db.tickets, SHOP_SEAT) == Some(1)
  {
    hide GateSound, GateAt;
    DoorIsSound(sign);
    DoorStates(sign);
    SeatIsResold();
    hide ListForResale, PurchaseResale, Allocate;
  }
}
