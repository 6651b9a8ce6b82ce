/** Group booking requests over whole runs: what was asked stays, and each request is decided once. */
module GroupBookings {
  import opened Prelude
  import opened SaleTypes
  import opened Commerce
  import opened SaleSteps
  import opened SaleInvariant
  import opened SaleHandlers
  import opened SaleFrames
  import opened SaleRuns

  /** The requests so far are still there, each asking for the same, and those decided stay as they were decided. */
  ghost predicate RequestsStand(before: seq<GroupRequest>, after: seq<GroupRequest>) {
    && |before| <= |after|
    && forall q :: 0 <= q < |before| ==>
         && after[q].(status := before[q].status) == before[q]
         && (before[q].status != Pending ==> after[q].status == before[q].status)
  }

  lemma StepLetsRequestsStand(db: Db, step: Step, now: int)
    requires WellFormed(step)
    ensures RequestsStand(db.requests, Apply(db, step, now).db.requests)
  {
    StepFollowsRequests(db, step, now);
    hide Apply;
  }

  lemma StandTransitive(a: seq<GroupRequest>, b: seq<GroupRequest>, c: seq<GroupRequest>)
    requires RequestsStand(a, b) && RequestsStand(b, c)
    ensures RequestsStand(a, c)
  {
    forall q | 0 <= q < |a|
      ensures c[q].(status := a[q].status) == a[q] && (a[q].status != Pending ==> c[q].status == a[q].status)
    {
      assert b[q].(status := a[q].status) == a[q];
    }
  }

  lemma NextState(db0: Db, moves: seq<Move>, m: nat)
    requires Legal(moves) && m < |moves|
    ensures WellFormed(moves[m].step)
    ensures After(db0, moves, m + 1) == Apply(After(db0, moves, m), moves[m].step, moves[m].now).db
  {
    hide Apply;
    assert WellFormed(moves[m].step);
  }

  /** Between any two states of a run. */
  lemma {:induction false} DecisionsAreFinal(db0: Db, moves: seq<Move>, m: nat, n: nat)
    requires Legal(moves) && m <= n <= |moves|
    ensures RequestsStand(After(db0, moves, m).requests, After(db0, moves, n).requests)
  {
    hide Apply, After, WellFormed;
    if m < n {
      DecisionsAreFinal(db0, moves, m, n - 1);
      NextState(db0, moves, n - 1);
      StepLetsRequestsStand(After(db0, moves, n - 1), moves[n - 1].step, moves[n - 1].now);
      hide RequestsStand;
      StandTransitive(After(db0, moves, m).requests, After(db0, moves, n - 1).requests, After(db0, moves, n).requests);
    }
  }

  predicate Decides(step: Step, q: RequestId) {
    (step.ApproveGroup? || step.RejectGroup?) && step.r == q
  }

  /** What the `k`th handler of a run answers. */
  ghost function Answer(db0: Db, moves: seq<Move>, k: nat): Result<nat, Error>
    requires Legal(moves) && k < |moves|
  {
    assert WellFormed(moves[k].step);
    Apply(After(db0, moves, k), moves[k].step, moves[k].now).result
  }

  lemma DecidedIsRefused(db: Db, step: Step, now: int, q: RequestId)
    requires WellFormed(step) && Decides(step, q) && q < |db.requests| && db.requests[q].status != Pending
    ensures Apply(db, step, now).result == Err(AlreadyReviewed)
  {
  }

  lemma DecisionDecides(db: Db, step: Step, now: int, q: RequestId)
    requires WellFormed(step) && q < |db.requests|
    ensures var r := Apply(db, step, now);
            && q < |r.db.requests|
            && (r.db.requests[q].status == Pending <==>
                  db.requests[q].status == Pending && !(Decides(step, q) && r.result.Ok?))
  {
    StepFollowsRequests(db, step, now);
    hide Apply;
  }

  /** A request awaits its decision in exactly those states of a run before which nobody has successfully decided it. */
  lemma {:induction false} PendingUntilDecided(db0: Db, moves: seq<Move>, m: nat, n: nat, q: RequestId)
    requires Legal(moves) && m <= n <= |moves|
    requires q < |After(db0, moves, m).requests| && After(db0, moves, m).requests[q].status == Pending
    ensures q < |After(db0, moves, n).requests|
    ensures After(db0, moves, n).requests[q].status == Pending <==>
              forall k :: m <= k < n && Decides(moves[k].step, q) ==> Answer(db0, moves, k).Err?
  {
    hide Apply, After, WellFormed, Decides;
    if m < n {
      PendingUntilDecided(db0, moves, m, n - 1, q);
      NextState(db0, moves, n - 1);
      DecisionDecides(After(db0, moves, n - 1), moves[n - 1].step, moves[n - 1].now, q);
    }
  }

  /** After a request has been approved or rejected, every later attempt to approve or reject it is refused. */
  lemma DecidedOnce(db0: Db, moves: seq<Move>, m: nat, n: nat, q: RequestId)
    requires Legal(moves) && m < n < |moves|
    requires Decides(moves[m].step, q) && Decides(moves[n].step, q) && Answer(db0, moves, m).Ok?
    ensures Answer(db0, moves, n) == Err(AlreadyReviewed)
  {
    hide Apply, After, WellFormed;
    NextState(db0, moves, m);
    NextState(db0, moves, n);
    StepFollowsRequests(After(db0, moves, m), moves[m].step, moves[m].now);
    DecisionsAreFinal(db0, moves, m + 1, n);
    DecidedIsRefused(After(db0, moves, n), moves[n].step, moves[n].now, q);
  }

  // ------------------------------------------------------------------- a request whose file is stored

  /** The part of `submitGroupBookingRequest` after the registration file is stored; it does not look at the event again. */
  function RecordRequest(db: Db, request: GroupRequest): Db {
    Log(db.(requests := db.requests + [request]), ByPublic, GroupBookingSubmitted(|db.requests|))
  }

  /** The place a request asks for is still there. */
  predicate PlaceExists(db: Db, request: GroupRequest) {
    request.eventId in db.events && request.dateId in db.events[request.eventId].dates
    && FindZone(db.events[request.eventId].zones, request.zoneId).Some?
  }

  /**
   Recording a request in whatever state the database is in by then keeps the handlers' invariant, even if its date or
   zone has been taken away; and while the place is missing, approving it is refused and changes nothing.
   */
  lemma LateRequestIsHarmless(db: Db, opening: seq<int>, request: GroupRequest, later: Db, q: RequestId, count: Option<int>)
    requires Inv(db, opening)
    ensures Inv(RecordRequest(db, request), opening)
    ensures q < |later.requests| && !PlaceExists(later, later.requests[q]) ==>
              ApproveGroupBooking(later, q, count).db == later && ApproveGroupBooking(later, q, count).result.Err?
  {
    InvIgnoresRequests(db, opening, RecordRequest(db, request).requests, RecordRequest(db, request).ledger);
    hide Inv, Available, AssignGroup, FindZone;
  }

  /** With nothing in between it is what the handler does. */
  lemma SubmissionRecords(db: Db, e: string, d: string, z: string, headcount: int)
    ensures var r := SubmitGroupBooking(db, e, d, z, headcount);
            r.result.Ok? <==>
              headcount >= 1 && headcount <= MAX_HEADCOUNT && PlaceExists(db, GroupRequest(e, d, z, headcount, Pending))
    ensures var r := SubmitGroupBooking(db, e, d, z, headcount);
            r.db == if r.result.Ok? then RecordRequest(db, GroupRequest(e, d, z, headcount, Pending)) else db
  {
    hide FindZone;
  }
}
