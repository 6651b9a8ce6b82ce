/** When each handler of the native booking session answers, and what it leaves, told from its records alone. */
module SessionAnswers {
  import opened Prelude
  import opened BookingSession

  /** An ACTIVE hold that has run out. */
  predicate Over(h: Hold, now: int) { h.status == Active && h.expiresAt <= now }

  function OverHolds(holds: seq<Hold>, now: int): set<nat> { set h: nat | h < |holds| && Over(holds[h], now) }

  lemma OverLast(init: seq<Hold>, last: Hold, now: int)
    ensures OverHolds(init + [last], now) == OverHolds(init, now) + (if Over(last, now) then {|init|} else {})
  {
  }

  lemma {:induction false} LapsesCounted(holds: seq<Hold>, now: int)
    ensures LapsedCount(holds, now) == |OverHolds(holds, now)|
  {
    if holds == [] {
      assert OverHolds(holds, now) == {};
    } else {
      var init, last := holds[..|holds| - 1], holds[|holds| - 1];
      LapsesCounted(init, now);
      OverLast(init, last, now);
      assert holds == init + [last] && |init| !in OverHolds(init, now);
      hide OverHolds;
    }
  }

  /** What every handler but joining does first: READY queues and ACTIVE holds that have run out expire, each hold a new revision. */
  lemma ExpiryAnswers(s: Session, now: int)
    ensures var r := Expire(s, now);
            && r == s.(queues := r.queues, holds := r.holds, revision := s.revision + |OverHolds(s.holds, now)|)
            && |r.queues| == |s.queues| && |r.holds| == |s.holds|
            && (forall q :: 0 <= q < |s.queues| ==>
                  r.queues[q] == if s.queues[q].status == Ready && s.queues[q].expiresAt <= now then s.queues[q].(status := QueueExpired)
                                 else s.queues[q])
            && (forall h :: 0 <= h < |s.holds| ==>
                  r.holds[h] == if Over(s.holds[h], now) then s.holds[h].(status := Expired) else s.holds[h])
  {
    LapsesCounted(s.holds, now);
  }

  /** A queue of the user, READY with time left. */
  predicate OpenQueue(s: Session, userId: UserId, q: QueueId, now: int) {
    q < |s.queues| && s.queues[q].userId == userId && s.queues[q].status == Ready && now < s.queues[q].expiresAt
  }

  /** A hold of the user, ACTIVE with time left. */
  predicate RunningHold(s: Session, userId: UserId, h: HoldId, now: int) {
    h < |s.holds| && s.holds[h].userId == userId && s.holds[h].status == Active && now < s.holds[h].expiresAt
  }

  /** Somebody's hold on the ticket, ACTIVE with time left. */
  predicate Occupied(s: Session, ticketId: TicketId, now: int) {
    exists h :: 0 <= h < |s.holds| && s.holds[h].status == Active && now < s.holds[h].expiresAt && s.holds[h].ticketId == ticketId
  }

  /** Anyone joins the queue of a performance there is, for ten minutes. */
  lemma JoinAnswers(s: Session, userId: UserId, e: string, p: string, now: int)
    ensures JoinQueue(s, userId, e, p, now)
            == if (e, p) in s.performances
               then Outcome(s.(queues := s.queues + [Queue(userId, e, p, Ready, now + 600000)]), Ok(|s.queues|))
               else Outcome(s, Err(PerformanceNotFound))
  {
  }

  lemma QueueAnswers(s: Session, userId: UserId, q: QueueId, now: int)
    ensures var r := GetQueue(s, userId, q, now);
            && r.session == Expire(s, now)
            && r.result == if q < |s.queues| && s.queues[q].userId == userId then Ok(q) else Err(QueueNotFound)
  {
    ExpiryAnswers(s, now);
    hide Expire, OverHolds;
  }

  /** The seats of a performance are shown, with the revision, to whom has an open queue for it. */
  lemma SeatsAnswers(s: Session, userId: UserId, q: QueueId, e: string, p: string, now: int)
    ensures var r := Seats(s, userId, q, e, p, now);
            && r.session == Expire(s, now)
            && (r.result.Ok? <==>
                  OpenQueue(s, userId, q, now) && s.queues[q].eventId == e && s.queues[q].performanceId == p && (e, p) in s.performances)
            && (r.result.Ok? ==> r.result == Ok(s.revision + |OverHolds(s.holds, now)|))
  {
    ExpiryAnswers(s, now);
    hide Expire, OverHolds;
  }

  /** A seat is somebody's if a hold on it is ACTIVE, yours if one of yours is, and otherwise up to its ticket. */
  lemma ShownAnswers(s: Session, userId: UserId, t: TicketId)
    requires t in s.tickets
    ensures var shown := SeatShown(s, userId, t);
            && (shown == Unavailable <==> !s.tickets[t].onSale)
            && (shown == HeldByYou <==>
                  s.tickets[t].onSale
                  && exists h :: 0 <= h < |s.holds| && s.holds[h].status == Active && s.holds[h].ticketId == t && s.holds[h].userId == userId)
            && (shown == Selectable <==>
                  s.tickets[t].onSale && forall h :: 0 <= h < |s.holds| && s.holds[h].status == Active ==> s.holds[h].ticketId != t)
  {
  }

  /**
   A seat is held, for five minutes and under the next revision, exactly if the user has an open queue for its performance,
   names the revision there is once what has run out is closed, and the ticket is on sale and nobody's.
   */
  lemma HoldAnswers(s: Session, userId: UserId, q: QueueId, t: TicketId, seen: nat, now: int)
    ensures var r := CreateHold(s, userId, q, t, seen, now);
            var revision := s.revision + |OverHolds(s.holds, now)|;
            && (r.result.Ok? <==>
                  && OpenQueue(s, userId, q, now) && seen == revision && t in s.tickets
                  && s.tickets[t].eventId == s.queues[q].eventId && s.tickets[t].performanceId == s.queues[q].performanceId
                  && s.tickets[t].onSale && !Occupied(s, t, now))
            && (r.result == Err(RevisionMismatch) <==> OpenQueue(s, userId, q, now) && seen != revision)
            && (r.result.Err? ==> r.session == Expire(s, now))
            && (r.result.Ok? ==>
                  r.result == Ok(|s.holds|)
                  && r.session == Expire(s, now).(
                       revision := revision + 1,
                       holds := Expire(s, now).holds + [Hold(q, userId, t, Active, now + 300000, revision + 1)]))
  {
    ExpiryAnswers(s, now);
    TakenAsTold(s, t, now);
    hide Expire, OverHolds, SeatTaken, Occupied;
  }

  lemma TakenAsTold(s: Session, t: TicketId, now: int)
    ensures SeatTaken(Expire(s, now).holds, t) <==> Occupied(s, t, now)
  {
    ExpiryAnswers(s, now);
    var holds := Expire(s, now).holds;
    hide Expire, OverHolds;
    forall h | 0 <= h < |s.holds|
      ensures holds[h].status == Active && holds[h].ticketId == t <==>
                s.holds[h].status == Active && now < s.holds[h].expiresAt && s.holds[h].ticketId == t
    {
    }
  }

  /** A renewal is for the hold's user, in time, and adds five minutes to what is left. */
  lemma RenewAnswers(s: Session, userId: UserId, h: HoldId, now: int)
    ensures var r := RenewHold(s, userId, h, now);
            && (r.result == Ok(h) <==> RunningHold(s, userId, h, now))
            && (r.result == Err(HoldNotFound) <==> !(h < |s.holds| && s.holds[h].userId == userId))
            && (r.result.Err? ==> r.session == Expire(s, now))
            && (r.result.Ok? ==>
                  h < |s.holds| && r.session == Expire(s, now).(
                    holds := Expire(s, now).holds[h := s.holds[h].(expiresAt := s.holds[h].expiresAt + 300000)]))
  {
    ExpiryAnswers(s, now);
    hide Expire, OverHolds;
  }

  /** A release is for the hold's user: an ACTIVE hold with time left is RELEASED, a new revision; any other stays over. */
  lemma ReleaseAnswers(s: Session, userId: UserId, h: HoldId, now: int)
    ensures var r := ReleaseHold(s, userId, h, now);
            && (r.result == Ok(h) <==> h < |s.holds| && s.holds[h].userId == userId)
            && (r.result.Err? <==> !(h < |s.holds| && s.holds[h].userId == userId))
            && r.session == if RunningHold(s, userId, h, now)
                            then Expire(s, now).(holds := Expire(s, now).holds[h := s.holds[h].(status := Released)],
                                                 revision := s.revision + |OverHolds(s.holds, now)| + 1)
                            else Expire(s, now)
  {
    ExpiryAnswers(s, now);
    hide Expire, OverHolds;
  }

  /** A draft is for the user of a running hold, at the ticket's face value, until the hold runs out. */
  lemma DraftAnswers(s: Session, userId: UserId, h: HoldId, now: int)
    ensures var r := CreateDraft(s, userId, h, now);
            && (r.result.Ok? <==> RunningHold(s, userId, h, now) && s.holds[h].ticketId in s.tickets)
            && (r.result.Err? ==> r.session == Expire(s, now))
            && (r.result.Ok? ==>
                  && r.result == Ok(|s.drafts|)
                  && var t := s.holds[h].ticketId;
                     r.session == Expire(s, now).(
                       drafts := s.drafts + [Draft(userId, h, t, s.tickets[t].faceValue, AwaitingPayment, s.holds[h].expiresAt)]))
  {
    ExpiryAnswers(s, now);
    hide Expire, OverHolds;
  }

  /** A draft is shown to its user, and is EXPIRED from then on if it awaited payment and its hold is over. */
  lemma ReadDraftAnswers(s: Session, userId: UserId, d: DraftId, now: int)
    ensures var r := GetDraft(s, userId, d, now);
            && (r.result == Ok(d) <==> d < |s.drafts| && s.drafts[d].userId == userId)
            && (r.result.Err? <==> !(d < |s.drafts| && s.drafts[d].userId == userId))
            && (r.result.Err? ==> r.session == Expire(s, now))
            && (r.result.Ok? ==>
                  d < |s.drafts|
                  && var draft := s.drafts[d];
                     var running := draft.holdId < |s.holds| && s.holds[draft.holdId].status == Active && now < s.holds[draft.holdId].expiresAt;
                     r.session == if draft.status == AwaitingPayment && !running
                                  then Expire(s, now).(drafts := s.drafts[d := draft.(status := DraftExpired)])
                                  else Expire(s, now))
  {
    ExpiryAnswers(s, now);
    hide Expire, OverHolds;
  }
}
