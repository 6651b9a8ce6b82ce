/** The native booking session (backend/booking-session.js): single-seat holds under an inventory revision number. */
module BookingSession {
  import opened Prelude

  type UserId = nat
  type TicketId = string
  type QueueId = nat
  type HoldId = nat
  type DraftId = nat

  datatype QueueStatus = Ready | QueueExpired

  datatype Queue = Queue(userId: UserId, eventId: string, performanceId: string, status: QueueStatus, expiresAt: int)

  datatype HoldStatus = Active | Expired | Released

  datatype Hold = Hold(queueId: QueueId, userId: UserId, ticketId: TicketId, status: HoldStatus, expiresAt: int, revision: nat)

  datatype DraftStatus = AwaitingPayment | DraftExpired

  datatype Draft = Draft(userId: UserId, holdId: HoldId, ticketId: TicketId, amount: int, status: DraftStatus, expiresAt: int)

  /** What the session reads of a ticket; other parts of the server change it. */
  datatype Ticket = Ticket(eventId: string, performanceId: string, onSale: bool, faceValue: int)

  datatype Session = Session(
    queues: seq<Queue>, holds: seq<Hold>, drafts: seq<Draft>, revision: nat,
    tickets: map<TicketId, Ticket>, performances: set<(string, string)>)

  datatype SessionError =
    | PerformanceNotFound | QueueNotFound | QueueInactive | QueueScopeMismatch | RevisionMismatch
    | SeatNotFound | SeatAlreadyHeld | HoldNotFound | HoldInactive | DraftNotFound | TicketGone

  datatype Outcome = Outcome(session: Session, result: Result<nat, SessionError>)

  const QUEUE_TTL_MS := 10 * 60 * 1000
  const HOLD_TTL_MS := 5 * 60 * 1000

  // ---------------------------------------------------------------------------------------- expiry

  predicate Lapsed(h: Hold, now: int) {
    h.status.Active? && h.expiresAt <= now
  }

  function ExpireQueues(queues: seq<Queue>, now: int): (r: seq<Queue>)
    ensures |r| == |queues|
  {
    seq(|queues|, i requires 0 <= i < |queues| =>
      if queues[i].status.Ready? && queues[i].expiresAt <= now then queues[i].(status := QueueExpired) else queues[i])
  }

  function ExpireHolds(holds: seq<Hold>, now: int): (r: seq<Hold>)
    ensures |r| == |holds|
  {
    seq(|holds|, i requires 0 <= i < |holds| => if Lapsed(holds[i], now) then holds[i].(status := Expired) else holds[i])
  }

  function LapsedCount(holds: seq<Hold>, now: int): nat {
    if holds == [] then 0 else LapsedCount(holds[..|holds| - 1], now) + (if Lapsed(holds[|holds| - 1], now) then 1 else 0)
  }

  function Expire(s: Session, now: int): Session {
    s.(queues := ExpireQueues(s.queues, now), holds := ExpireHolds(s.holds, now), revision := s.revision + LapsedCount(s.holds, now))
  }

  // --------------------------------------------------------------------------------------- handlers

  predicate SeatTaken(holds: seq<Hold>, ticketId: TicketId) {
    exists h :: 0 <= h < |holds| && holds[h].status.Active? && holds[h].ticketId == ticketId
  }

  predicate OwnQueue(s: Session, userId: UserId, q: QueueId) {
    q < |s.queues| && s.queues[q].userId == userId
  }

  predicate OwnHold(s: Session, userId: UserId, h: HoldId) {
    h < |s.holds| && s.holds[h].userId == userId
  }

  function JoinQueue(s: Session, userId: UserId, eventId: string, performanceId: string, now: int): Outcome {
    if (eventId, performanceId) !in s.performances then Outcome(s, Err(PerformanceNotFound))
    else Outcome(s.(queues := s.queues + [Queue(userId, eventId, performanceId, Ready, now + QUEUE_TTL_MS)]), Ok(|s.queues|))
  }

  function GetQueue(s0: Session, userId: UserId, q: QueueId, now: int): Outcome {
    var s := Expire(s0, now);
    Outcome(s, if OwnQueue(s, userId, q) then Ok(q) else Err(QueueNotFound))
  }

  datatype SeatState = Unavailable | HeldByYou | HeldByOther | Selectable

  function SeatShown(s: Session, userId: UserId, ticketId: TicketId): SeatState
    requires ticketId in s.tickets
  {
    if !s.tickets[ticketId].onSale then Unavailable
    else if exists h :: 0 <= h < |s.holds| && s.holds[h].status.Active? && s.holds[h].ticketId == ticketId && s.holds[h].userId == userId
    then HeldByYou
    else if SeatTaken(s.holds, ticketId) then HeldByOther
    else Selectable
  }

  /** `seats`: on success the answer carries the current revision and every seat's state. */
  function Seats(s0: Session, userId: UserId, q: QueueId, eventId: string, performanceId: string, now: int): Outcome {
    var s := Expire(s0, now);
    if !OwnQueue(s, userId, q) then Outcome(s, Err(QueueNotFound))
    else if !s.queues[q].status.Ready? then Outcome(s, Err(QueueInactive))
    else if s.queues[q].eventId != eventId || s.queues[q].performanceId != performanceId then Outcome(s, Err(QueueScopeMismatch))
    else if (eventId, performanceId) !in s.performances then Outcome(s, Err(PerformanceNotFound))
    else Outcome(s, Ok(s.revision))
  }

  predicate OffersSeat(s: Session, q: QueueId, ticketId: TicketId)
    requires q < |s.queues|
  {
    ticketId in s.tickets && s.tickets[ticketId].eventId == s.queues[q].eventId
    && s.tickets[ticketId].performanceId == s.queues[q].performanceId
  }

  function CreateHold(s0: Session, userId: UserId, q: QueueId, ticketId: TicketId, revision: nat, now: int): Outcome {
    var s := Expire(s0, now);
    if !OwnQueue(s, userId, q) then Outcome(s, Err(QueueNotFound))
    else if !s.queues[q].status.Ready? then Outcome(s, Err(QueueInactive))
    else if revision != s.revision then Outcome(s, Err(RevisionMismatch))
    else if !OffersSeat(s, q, ticketId) then Outcome(s, Err(SeatNotFound))
    else if !s.tickets[ticketId].onSale || SeatTaken(s.holds, ticketId) then Outcome(s, Err(SeatAlreadyHeld))
    else Outcome(
      s.(revision := s.revision + 1,
         holds := s.holds + [Hold(q, userId, ticketId, Active, now + HOLD_TTL_MS, s.revision + 1)]),
      Ok(|s.holds|))
  }

  function Later(a: int, b: int): int { if a > b then a else b }

  function RenewHold(s0: Session, userId: UserId, h: HoldId, now: int): Outcome {
    var s := Expire(s0, now);
    if !OwnHold(s, userId, h) then Outcome(s, Err(HoldNotFound))
    else if !s.holds[h].status.Active? then Outcome(s, Err(HoldInactive))
    else Outcome(s.(holds := s.holds[h := s.holds[h].(expiresAt := Later(now, s.holds[h].expiresAt) + HOLD_TTL_MS)]), Ok(h))
  }

  function ReleaseHold(s0: Session, userId: UserId, h: HoldId, now: int): Outcome {
    var s := Expire(s0, now);
    if !OwnHold(s, userId, h) then Outcome(s, Err(HoldNotFound))
    else if !s.holds[h].status.Active? then Outcome(s, Ok(h))
    else Outcome(s.(holds := s.holds[h := s.holds[h].(status := Released)], revision := s.revision + 1), Ok(h))
  }

  /** A ticket dropped from the inventory while held makes `createDraft` fail on the missing record. */
  function CreateDraft(s0: Session, userId: UserId, h: HoldId, now: int): Outcome {
    var s := Expire(s0, now);
    if !OwnHold(s, userId, h) then Outcome(s, Err(HoldNotFound))
    else if !s.holds[h].status.Active? then Outcome(s, Err(HoldInactive))
    else if s.holds[h].ticketId !in s.tickets then Outcome(s, Err(TicketGone))
    else Outcome(
      s.(drafts := s.drafts + [Draft(userId, h, s.holds[h].ticketId, s.tickets[s.holds[h].ticketId].faceValue,
                                     AwaitingPayment, s.holds[h].expiresAt)]),
      Ok(|s.drafts|))
  }

  function GetDraft(s0: Session, userId: UserId, d: DraftId, now: int): Outcome {
    var s := Expire(s0, now);
    if d >= |s.drafts| || s.drafts[d].userId != userId then Outcome(s, Err(DraftNotFound))
    else
      var h := s.drafts[d].holdId;
      if s.drafts[d].status.AwaitingPayment? && (h >= |s.holds| || !s.holds[h].status.Active?)
      then Outcome(s.(drafts := s.drafts[d := s.drafts[d].(status := DraftExpired)]), Ok(d))
      else Outcome(s, Ok(d))
  }

  datatype Step =
    | Join(userId: UserId, eventId: string, performanceId: string)
    | LookAtQueue(userId: UserId, q: QueueId)
    | LookAtSeats(userId: UserId, q: QueueId, eventId: string, performanceId: string)
    | Select(userId: UserId, q: QueueId, ticketId: TicketId, seen: nat)
    | Renew(userId: UserId, h: HoldId)
    | Release(userId: UserId, h: HoldId)
    | MakeDraft(userId: UserId, h: HoldId)
    | LookAtDraft(userId: UserId, d: DraftId)
    | Elsewhere(tickets: map<TicketId, Ticket>, performances: set<(string, string)>)

  /** One handler at one clock reading, or any change the rest of the server makes to tickets and events. */
  function Apply(s: Session, step: Step, now: int): Outcome {
    match step
    case Join(u, e, p) => JoinQueue(s, u, e, p, now)
    case LookAtQueue(u, q) => GetQueue(s, u, q, now)
    case LookAtSeats(u, q, e, p) => Seats(s, u, q, e, p, now)
    case Select(u, q, t, seen) => CreateHold(s, u, q, t, seen, now)
    case Renew(u, h) => RenewHold(s, u, h, now)
    case Release(u, h) => ReleaseHold(s, u, h, now)
    case MakeDraft(u, h) => CreateDraft(s, u, h, now)
    case LookAtDraft(u, d) => GetDraft(s, u, d, now)
    case Elsewhere(tickets, performances) => Outcome(s.(tickets := tickets, performances := performances), Ok(0))
  }

  // ---------------------------------------------------------------------------- the revision number

  function ActiveHolds(holds: seq<Hold>): set<HoldId> {
    set h: HoldId | h < |holds| && holds[h].status.Active?
  }

  /** At most one ACTIVE hold per ticket; revisions stamped on holds are strictly increasing and never ahead. */
  ghost predicate SessionInv(s: Session) {
    && (forall g, h :: 0 <= g < h < |s.holds| && s.holds[g].status.Active? && s.holds[h].status.Active? ==>
          s.holds[g].ticketId != s.holds[h].ticketId)
    && (forall g, h :: 0 <= g < h < |s.holds| ==> s.holds[g].revision < s.holds[h].revision)
    && (forall h :: 0 <= h < |s.holds| ==> s.holds[h].revision <= s.revision)
  }

  /** Holds are only appended, keep their seat, and never become ACTIVE again; a changed ACTIVE set has a larger revision. */
  ghost predicate Moves(a: Session, b: Session) {
    && |a.holds| <= |b.holds|
    && (forall h :: 0 <= h < |a.holds| ==> b.holds[h].ticketId == a.holds[h].ticketId && (b.holds[h].status.Active? ==> a.holds[h].status.Active?))
    && a.revision <= b.revision
    && (a.revision == b.revision ==> ActiveHolds(a.holds) == ActiveHolds(b.holds))
  }

  lemma {:induction false} NoLapse(holds: seq<Hold>, now: int)
    requires LapsedCount(holds, now) == 0
    ensures forall h :: 0 <= h < |holds| ==> !Lapsed(holds[h], now)
  {
    if holds != [] { NoLapse(holds[..|holds| - 1], now); }
  }

  lemma ExpireMoves(s: Session, now: int)
    requires SessionInv(s)
    ensures SessionInv(Expire(s, now)) && Moves(s, Expire(s, now))
  {
    if LapsedCount(s.holds, now) == 0 { NoLapse(s.holds, now); }
  }

  lemma MovesTransitive(a: Session, b: Session, c: Session)
    requires Moves(a, b) && Moves(b, c)
    ensures Moves(a, c)
  {
  }

  lemma HoldMoves(s: Session, hold: Hold)
    requires SessionInv(s) && hold.status.Active? && !SeatTaken(s.holds, hold.ticketId) && hold.revision == s.revision + 1
    ensures var r := s.(revision := s.revision + 1, holds := s.holds + [hold]); SessionInv(r) && Moves(s, r)
  {
  }

  lemma EditMoves(s: Session, h: HoldId, hold: Hold, revision: nat)
    requires SessionInv(s) && h < |s.holds| && s.holds[h].status.Active?
    requires hold.ticketId == s.holds[h].ticketId && hold.revision == s.holds[h].revision
    requires revision >= s.revision && (hold.status.Active? || revision > s.revision)
    ensures var r := s.(holds := s.holds[h := hold], revision := revision); SessionInv(r) && Moves(s, r)
  {
    var r := s.(holds := s.holds[h := hold], revision := revision);
    if hold.status.Active? { assert ActiveHolds(r.holds) == ActiveHolds(s.holds); }
  }

  lemma SameHoldsMove(s: Session, r: Session)
    requires SessionInv(s) && r.holds == s.holds && r.revision == s.revision
    ensures SessionInv(r) && Moves(s, r)
  {
  }

  lemma StepMoves(s0: Session, step: Step, now: int)
    requires SessionInv(s0)
    ensures var r := Apply(s0, step, now).session; SessionInv(r) && Moves(s0, r)
  {
    hide SessionInv, Moves, Expire;
    ExpireMoves(s0, now);
    var s := Expire(s0, now);
    var r := Apply(s0, step, now).session;
    match step
    case Select(u, q, t, seen) =>
      if r != s {
        HoldMoves(s, r.holds[|s.holds|]);
        MovesTransitive(s0, s, r);
      }
    case Renew(u, h) =>
      if r != s {
        EditMoves(s, h, r.holds[h], s.revision);
        MovesTransitive(s0, s, r);
      }
    case Release(u, h) =>
      if r != s {
        EditMoves(s, h, r.holds[h], s.revision + 1);
        MovesTransitive(s0, s, r);
      }
    case Join(_, _, _) => SameHoldsMove(s0, r);
    case Elsewhere(_, _) => SameHoldsMove(s0, r);
    case _ =>
      SameHoldsMove(s, r);
      MovesTransitive(s0, s, r);
  }

  // ------------------------------------------------------------------------------------ whole runs

  datatype Turn = Turn(step: Step, now: int)

  function After(s: Session, turns: seq<Turn>, n: nat): Session
    requires n <= |turns|
  {
    if n == 0 then s else Apply(After(s, turns, n - 1), turns[n - 1].step, turns[n - 1].now).session
  }

  const NO_SESSION := Session([], [], [], 0, map[], {})

  /** A session without holds is such a state: what is required of the start of a run can be met. */
  lemma EmptySession()
    ensures SessionInv(NO_SESSION) && DraftsOk(NO_SESSION)
  {
  }

  /** In every state of every run no ticket has two ACTIVE holds. */
  lemma {:induction false} OneActiveHoldPerTicket(s: Session, turns: seq<Turn>, n: nat)
    requires SessionInv(s) && n <= |turns|
    ensures SessionInv(After(s, turns, n))
  {
    hide SessionInv, Apply, Moves;
    if n > 0 {
      OneActiveHoldPerTicket(s, turns, n - 1);
      StepMoves(After(s, turns, n - 1), turns[n - 1].step, turns[n - 1].now);
    }
  }

  lemma {:induction false} RunMoves(s: Session, turns: seq<Turn>, n: nat, m: nat)
    requires SessionInv(s) && n <= m <= |turns|
    ensures Moves(After(s, turns, n), After(s, turns, m))
  {
    hide SessionInv, Apply, Moves;
    OneActiveHoldPerTicket(s, turns, n);
    if n == m {
      SameHoldsMove(After(s, turns, n), After(s, turns, n));
    } else {
      RunMoves(s, turns, n, m - 1);
      OneActiveHoldPerTicket(s, turns, m - 1);
      StepMoves(After(s, turns, m - 1), turns[m - 1].step, turns[m - 1].now);
      MovesTransitive(After(s, turns, n), After(s, turns, m - 1), After(s, turns, m));
    }
  }

  /** The revision is ABA-free: two states of one run with the same revision have the same ACTIVE holds, on the same seats. */
  lemma RevisionNamesTheHolds(s: Session, turns: seq<Turn>, n: nat, m: nat)
    requires SessionInv(s) && n <= m <= |turns|
    ensures var a, b := After(s, turns, n), After(s, turns, m);
            a.revision == b.revision ==>
              ActiveHolds(a.holds) == ActiveHolds(b.holds)
              && forall h :: h in ActiveHolds(a.holds) ==> a.holds[h].ticketId == b.holds[h].ticketId
  {
    RunMoves(s, turns, n, m);
    hide After;
  }

  /**
   A seat shown as SELECTABLE under a revision can be held under that revision for as long as the revision lasts:
   past the queue and revision checks, `createHold` succeeds exactly when the ticket is still there and on sale, and
   it answers SEAT_ALREADY_HELD only because the ticket's own status changed.
   */
  lemma SelectableMeansHoldable(
    s: Session, turns: seq<Turn>, n: nat, m: nat, viewer: UserId, userId: UserId, q: QueueId, ticketId: TicketId, now: int)
    requires SessionInv(s) && n <= m <= |turns|
    requires var shown := After(s, turns, n); ticketId in shown.tickets && SeatShown(shown, viewer, ticketId) == Selectable
    ensures var shown, before := After(s, turns, n), After(s, turns, m);
            var r, at := CreateHold(before, userId, q, ticketId, shown.revision, now).result, Expire(before, now);
            r !in {Err(QueueNotFound), Err(QueueInactive), Err(RevisionMismatch)} ==>
              && (r.Ok? <==> OffersSeat(at, q, ticketId) && at.tickets[ticketId].onSale)
              && (r == Err(SeatAlreadyHeld) ==> !at.tickets[ticketId].onSale)
  {
    RunMoves(s, turns, n, m);
    OneActiveHoldPerTicket(s, turns, m);
    ExpireMoves(After(s, turns, m), now);
    hide After, Expire;
    MovesTransitive(After(s, turns, n), After(s, turns, m), Expire(After(s, turns, m), now));
    StillFree(After(s, turns, n), Expire(After(s, turns, m), now), ticketId);
  }

  lemma StillFree(a: Session, b: Session, ticketId: TicketId)
    requires Moves(a, b) && !SeatTaken(a.holds, ticketId)
    ensures a.revision == b.revision ==> !SeatTaken(b.holds, ticketId)
  {
    if a.revision == b.revision {
      forall h | 0 <= h < |b.holds| ensures !(b.holds[h].status.Active? && b.holds[h].ticketId == ticketId) {
        assert h in ActiveHolds(b.holds) <==> b.holds[h].status.Active?;
        assert h in ActiveHolds(a.holds) <==> h < |a.holds| && a.holds[h].status.Active?;
      }
    }
  }

  // ---------------------------------------------------------------------------------------- drafts

  /** A draft is for the seat and the user of its hold, expires no later than it, and is EXPIRED only once it is over. */
  ghost predicate DraftsOk(s: Session) {
    forall d :: 0 <= d < |s.drafts| ==>
      var draft := s.drafts[d];
      && draft.holdId < |s.holds| && draft.ticketId == s.holds[draft.holdId].ticketId && draft.userId == s.holds[draft.holdId].userId
      && draft.expiresAt <= s.holds[draft.holdId].expiresAt
      && (draft.status.DraftExpired? ==> !s.holds[draft.holdId].status.Active?)
  }

  /** Nothing but a successful renewal moves a hold's expiry, and that moves it on; drafts only ever change their status. */
  ghost predicate DraftsStay(a: Session, b: Session, renewed: Option<HoldId>) {
    && |a.holds| <= |b.holds| && |a.drafts| <= |b.drafts|
    && (forall h :: 0 <= h < |a.holds| ==>
          && b.holds[h].ticketId == a.holds[h].ticketId && b.holds[h].userId == a.holds[h].userId
          && (b.holds[h].status.Active? ==> a.holds[h].status.Active?)
          && (if renewed == Some(h) then b.holds[h].expiresAt > a.holds[h].expiresAt else b.holds[h].expiresAt == a.holds[h].expiresAt))
    && (forall d :: 0 <= d < |a.drafts| ==> b.drafts[d] == a.drafts[d].(status := b.drafts[d].status))
  }

  /** The hold a step renews. */
  function Renewed(s: Session, step: Step, now: int): Option<HoldId> {
    if step.Renew? && RenewHold(s, step.userId, step.h, now).result.Ok? then Some(step.h) else None
  }

  lemma StepStays(s: Session, step: Step, now: int)
    ensures DraftsStay(s, Apply(s, step, now).session, Renewed(s, step, now))
  {
    hide LapsedCount, ExpireQueues;
  }

  /** A draft that changed has EXPIRED with its hold over; a draft that is new takes its hold's seat, user and expiry. */
  ghost predicate DraftsChange(a: Session, b: Session) {
    forall d :: 0 <= d < |b.drafts| ==>
      var draft := b.drafts[d];
      if d < |a.drafts| then
        draft.status == a.drafts[d].status || draft.holdId >= |b.holds| || !b.holds[draft.holdId].status.Active?
      else
        && draft.holdId < |b.holds| && draft.ticketId == b.holds[draft.holdId].ticketId && draft.userId == b.holds[draft.holdId].userId
        && draft.expiresAt == b.holds[draft.holdId].expiresAt && draft.status.AwaitingPayment?
  }

  lemma StepChangesDrafts(s: Session, step: Step, now: int)
    ensures DraftsChange(s, Apply(s, step, now).session)
  {
    hide LapsedCount, ExpireQueues;
  }

  lemma StayedDraftsOk(a: Session, b: Session, renewed: Option<HoldId>)
    requires DraftsOk(a) && DraftsStay(a, b, renewed) && DraftsChange(a, b)
    ensures DraftsOk(b)
  {
    forall d | 0 <= d < |a.drafts| ensures b.drafts[d].expiresAt <= b.holds[b.drafts[d].holdId].expiresAt {
      var h := a.drafts[d].holdId;
      assert b.holds[h].expiresAt >= a.holds[h].expiresAt;
    }
  }

  lemma StepKeepsDrafts(s: Session, step: Step, now: int)
    requires DraftsOk(s)
    ensures DraftsOk(Apply(s, step, now).session)
  {
    hide *;
    StepStays(s, step, now);
    StepChangesDrafts(s, step, now);
    StayedDraftsOk(s, Apply(s, step, now).session, Renewed(s, step, now));
  }

  lemma {:induction false} DraftsFollowHolds(s: Session, turns: seq<Turn>, n: nat)
    requires DraftsOk(s) && n <= |turns|
    ensures DraftsOk(After(s, turns, n))
  {
    hide DraftsOk, DraftsStay, Apply;
    if n > 0 {
      DraftsFollowHolds(s, turns, n - 1);
      StepKeepsDrafts(After(s, turns, n - 1), turns[n - 1].step, turns[n - 1].now);
    }
  }

  /** Over any run, a draft that has just been looked at is AWAITING_PAYMENT exactly when its hold is ACTIVE. */
  lemma LookTellsTheHold(s: Session, turns: seq<Turn>, n: nat, d: DraftId)
    requires DraftsOk(s) && n < |turns| && turns[n].step.LookAtDraft? && turns[n].step.d == d
    requires Apply(After(s, turns, n), turns[n].step, turns[n].now).result.Ok?
    ensures var r := After(s, turns, n + 1);
            && d < |r.drafts| && r.drafts[d].holdId < |r.holds|
            && (r.drafts[d].status.AwaitingPayment? <==> r.holds[r.drafts[d].holdId].status.Active?)
  {
    DraftsFollowHolds(s, turns, n + 1);
    LookSettles(After(s, turns, n), turns[n].step.userId, d, turns[n].now);
    hide DraftsOk, Expire;
    assert DraftsOk(After(s, turns, n + 1));
    StatusFits(After(s, turns, n + 1), d);
  }

  lemma LookSettles(s: Session, userId: UserId, d: DraftId, now: int)
    requires GetDraft(s, userId, d, now).result.Ok?
    ensures var r := GetDraft(s, userId, d, now).session;
            d < |r.drafts| && (r.drafts[d].status.AwaitingPayment? ==>
              r.drafts[d].holdId < |r.holds| && r.holds[r.drafts[d].holdId].status.Active?)
  {
  }

  lemma StatusFits(s: Session, d: DraftId)
    requires DraftsOk(s) && d < |s.drafts|
    ensures s.drafts[d].holdId < |s.holds|
    ensures s.drafts[d].status.DraftExpired? ==> !s.holds[s.drafts[d].holdId].status.Active?
  {
  }

  /** The draft a turn makes, with its hold. */
  predicate Makes(s: Session, turns: seq<Turn>, n: nat, h: HoldId, d: DraftId)
    requires n < |turns|
  {
    turns[n].step.MakeDraft? && turns[n].step.h == h && Apply(After(s, turns, n), turns[n].step, turns[n].now).result == Ok(d)
  }

  lemma MadeWithHold(s: Session, userId: UserId, h: HoldId, now: int)
    requires CreateDraft(s, userId, h, now).result.Ok?
    ensures var r, d := CreateDraft(s, userId, h, now).session, |s.drafts|;
            && CreateDraft(s, userId, h, now).result == Ok(d) && |r.drafts| == d + 1 && r.drafts[d].holdId == h && h < |r.holds|
            && r.drafts[d].expiresAt == r.holds[h].expiresAt
  {
  }

  lemma RenewalStep(a: Session, b: Session, renewed: Option<HoldId>, h: HoldId, d: DraftId)
    requires DraftsStay(a, b, renewed) && d < |a.drafts| && h < |a.holds| && a.drafts[d].expiresAt <= a.holds[h].expiresAt
    ensures d < |b.drafts| && h < |b.holds| && b.drafts[d].expiresAt == a.drafts[d].expiresAt && b.drafts[d].holdId == a.drafts[d].holdId
    ensures b.drafts[d].expiresAt <= b.holds[h].expiresAt
    ensures b.drafts[d].expiresAt == b.holds[h].expiresAt <==>
              a.drafts[d].expiresAt == a.holds[h].expiresAt && renewed != Some(h)
  {
  }

  /**
   A draft keeps the expiry its hold had when it was made.  However much later, it is still the hold's own exactly if the
   hold has not been renewed since; after a renewal the hold, and with it AWAITING_PAYMENT, outlives the draft's expiry.
   */
  lemma {:induction false} RenewalLeavesDraftBehind(s: Session, turns: seq<Turn>, n: nat, m: nat, h: HoldId, d: DraftId)
    requires n < m <= |turns| && Makes(s, turns, n, h, d)
    ensures var r := After(s, turns, m);
            && d < |r.drafts| && h < |r.holds| && r.drafts[d].holdId == h
            && r.drafts[d].expiresAt <= r.holds[h].expiresAt
            && (r.drafts[d].expiresAt == r.holds[h].expiresAt <==>
                  forall k :: n < k < m ==> Renewed(After(s, turns, k), turns[k].step, turns[k].now) != Some(h))
    decreases m
  {
    hide Apply, After, Renewed;
    NextState(s, turns, m - 1);
    if m == n + 1 {
      MakesStep(s, turns, n, h, d);
    } else {
      RenewalLeavesDraftBehind(s, turns, n, m - 1, h, d);
      StepStays(After(s, turns, m - 1), turns[m - 1].step, turns[m - 1].now);
      hide DraftsStay;
      RenewalStep(After(s, turns, m - 1), After(s, turns, m), Renewed(After(s, turns, m - 1), turns[m - 1].step, turns[m - 1].now), h, d);
    }
  }

  lemma NextState(s: Session, turns: seq<Turn>, n: nat)
    requires n < |turns|
    ensures After(s, turns, n + 1) == Apply(After(s, turns, n), turns[n].step, turns[n].now).session
  {
    hide Apply;
  }

  lemma MakesStep(s: Session, turns: seq<Turn>, n: nat, h: HoldId, d: DraftId)
    requires n < |turns| && Makes(s, turns, n, h, d)
    ensures var r := After(s, turns, n + 1);
            d < |r.drafts| && h < |r.holds| && r.drafts[d].holdId == h && r.drafts[d].expiresAt == r.holds[h].expiresAt
  {
    MadeWithHold(After(s, turns, n), turns[n].step.userId, h, turns[n].now);
    NextState(s, turns, n);
    hide After, CreateDraft;
  }

  // ------------------------------------------------------------------------ the session, in place

  class Desk {
    var queues: seq<Queue>
    var holds: seq<Hold>
    var drafts: seq<Draft>
    var revision: nat
    var tickets: map<TicketId, Ticket>
    var performances: set<(string, string)>

    constructor (s: Session)
      ensures Snapshot() == s
    {
      queues, holds, drafts, revision := s.queues, s.holds, s.drafts, s.revision;
      tickets, performances := s.tickets, s.performances;
    }

    function Snapshot(): Session
      reads this
    {
      Session(queues, holds, drafts, revision, tickets, performances)
    }

    /** `expire`: two loops over the arrays; every hold that lapses moves the revision on by one. */
    method ExpireAll(now: int)
      modifies this
      ensures Snapshot() == Expire(old(Snapshot()), now)
    {
      ghost var queues1, holds1 := ExpireQueues(queues, now), ExpireHolds(holds, now);
      for i := 0 to |queues|
        invariant |queues| == |queues1|
        invariant forall k :: 0 <= k < i ==> queues[k] == queues1[k]
        invariant forall k :: i <= k < |queues| ==> queues[k] == old(queues)[k]
        invariant Snapshot() == old(Snapshot()).(queues := queues)
      {
        if queues[i].status.Ready? && queues[i].expiresAt <= now {
          queues := queues[i := queues[i].(status := QueueExpired)];
        }
      }
      assert queues == queues1;
      for i := 0 to |holds|
        invariant |holds| == |holds1| == |old(holds)|
        invariant forall k :: 0 <= k < i ==> holds[k] == holds1[k]
        invariant forall k :: i <= k < |holds| ==> holds[k] == old(holds)[k]
        invariant revision == old(revision) + LapsedCount(old(holds)[..i], now)
        invariant Snapshot() == old(Snapshot()).(queues := queues1, holds := holds, revision := revision)
      {
        assert old(holds)[..i + 1][..i] == old(holds)[..i];
        if holds[i].status.Active? && holds[i].expiresAt <= now {
          holds := holds[i := holds[i].(status := Expired)];
          revision := revision + 1;
        }
      }
      assert holds == holds1 && old(holds)[..|old(holds)|] == old(holds);
    }

    method CreateSeatHold(userId: UserId, q: QueueId, ticketId: TicketId, seen: nat, now: int) returns (result: Result<nat, SessionError>)
      modifies this
      ensures Outcome(Snapshot(), result) == CreateHold(old(Snapshot()), userId, q, ticketId, seen, now)
    {
      hide Expire;
      ExpireAll(now);
      if q >= |queues| || queues[q].userId != userId { return Err(QueueNotFound); }
      if !queues[q].status.Ready? { return Err(QueueInactive); }
      if seen != revision { return Err(RevisionMismatch); }
      if !OffersSeat(Snapshot(), q, ticketId) { return Err(SeatNotFound); }
      if !tickets[ticketId].onSale || SeatTaken(holds, ticketId) { return Err(SeatAlreadyHeld); }
      revision := revision + 1;
      holds := holds + [Hold(q, userId, ticketId, Active, now + HOLD_TTL_MS, revision)];
      return Ok(|holds| - 1);
    }

    method RenewSeatHold(userId: UserId, h: HoldId, now: int) returns (result: Result<nat, SessionError>)
      modifies this
      ensures Outcome(Snapshot(), result) == RenewHold(old(Snapshot()), userId, h, now)
    {
      hide Expire;
      ExpireAll(now);
      if h >= |holds| || holds[h].userId != userId { return Err(HoldNotFound); }
      if !holds[h].status.Active? { return Err(HoldInactive); }
      holds := holds[h := holds[h].(expiresAt := Later(now, holds[h].expiresAt) + HOLD_TTL_MS)];
      return Ok(h);
    }

    method ReleaseSeatHold(userId: UserId, h: HoldId, now: int) returns (result: Result<nat, SessionError>)
      modifies this
      ensures Outcome(Snapshot(), result) == ReleaseHold(old(Snapshot()), userId, h, now)
    {
      hide Expire;
      ExpireAll(now);
      if h >= |holds| || holds[h].userId != userId { return Err(HoldNotFound); }
      if holds[h].status.Active? {
        holds := holds[h := holds[h].(status := Released)];
        revision := revision + 1;
      }
      return Ok(h);
    }

    method CreateReservationDraft(userId: UserId, h: HoldId, now: int) returns (result: Result<nat, SessionError>)
      modifies this
      ensures Outcome(Snapshot(), result) == CreateDraft(old(Snapshot()), userId, h, now)
    {
      hide Expire;
      ExpireAll(now);
      if h >= |holds| || holds[h].userId != userId { return Err(HoldNotFound); }
      if !holds[h].status.Active? { return Err(HoldInactive); }
      if holds[h].ticketId !in tickets { return Err(TicketGone); }
      drafts := drafts + [Draft(userId, h, holds[h].ticketId, tickets[holds[h].ticketId].faceValue, AwaitingPayment, holds[h].expiresAt)];
      return Ok(|drafts| - 1);
    }

    method LookAtDraft(userId: UserId, d: DraftId, now: int) returns (result: Result<nat, SessionError>)
      modifies this
      ensures Outcome(Snapshot(), result) == GetDraft(old(Snapshot()), userId, d, now)
    {
      hide Expire;
      ExpireAll(now);
      if d >= |drafts| || drafts[d].userId != userId { return Err(DraftNotFound); }
      var h := drafts[d].holdId;
      if drafts[d].status.AwaitingPayment? && (h >= |holds| || !holds[h].status.Active?) {
        drafts := drafts[d := drafts[d].(status := DraftExpired)];
      }
      return Ok(d);
    }
  }
}
