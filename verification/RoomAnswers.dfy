/**
 What the waiting room answers, told from its entries alone: whose window is over, who is let in and for how long, and what
 entering and leaving do to an entry.
 */
module RoomAnswers {
  import opened Prelude
  import opened StableSort
  import opened WaitingRoom

  /** The window of an admission is over. */
  predicate WindowOver(e: Entry, now: int) { e.admissionExpiresAt.Some? && e.admissionExpiresAt.value <= now }

  /** Those in the room whose time is not over. */
  function Staying(entries: seq<Entry>, performance: string, now: int): set<nat> {
    set i: nat | i < |entries| && entries[i].performance == performance && entries[i].status == Admitted && !WindowOver(entries[i], now)
  }

  /** Those waiting for the same performance who came earlier, or at the same time and stand before it. */
  function WaitingBefore(entries: seq<Entry>, i: nat): set<nat>
    requires i < |entries|
  {
    set j: nat | j < |entries| && entries[j].performance == entries[i].performance && entries[j].status == Waiting
                 && (entries[j].enteredAt < entries[i].enteredAt || (entries[j].enteredAt == entries[i].enteredAt && j < i))
  }

  function With(entries: seq<Entry>, performance: string, status: EntryStatus): set<nat> {
    set i: nat | i < |entries| && entries[i].performance == performance && entries[i].status == status
  }

  lemma WithLast(init: seq<Entry>, last: Entry, performance: string, status: EntryStatus)
    ensures With(init + [last], performance, status)
            == With(init, performance, status) + (if last.performance == performance && last.status == status then {|init|} else {})
  {
  }

  lemma {:induction false} CountIsSize(entries: seq<Entry>, performance: string, status: EntryStatus)
    ensures Count(entries, performance, status) == |With(entries, performance, status)|
  {
    if entries == [] {
      assert With(entries, performance, status) == {};
    } else {
      var init, last := entries[..|entries| - 1], entries[|entries| - 1];
      CountIsSize(init, performance, status);
      WithLast(init, last, performance, status);
      assert entries == init + [last] && |init| !in With(init, performance, status);
      hide With;
    }
  }

  lemma StayingCounted(entries: seq<Entry>, performance: string, now: int)
    ensures Count(LapseAll(entries, performance, now), performance, Admitted) == |Staying(entries, performance, now)|
  {
    CountIsSize(LapseAll(entries, performance, now), performance, Admitted);
    assert With(LapseAll(entries, performance, now), performance, Admitted) == Staying(entries, performance, now);
  }

  function Members(ids: seq<nat>): set<nat> { set i | i in ids }

  lemma {:induction false} MembersCounted(ids: seq<nat>)
    requires NoDuplicates(ids)
    ensures |Members(ids)| == |ids|
  {
    if ids != [] {
      var init, last := ids[..|ids| - 1], ids[|ids| - 1];
      MembersCounted(init);
      assert ids == init + [last] && Members(ids) == Members(init) + {last};
    }
  }

  /** In an ordered list, those before a member are those in front of it. */
  lemma FrontIsBefore(order: seq<nat>, key: nat -> int, p: nat, j: nat)
    requires Ordered(order, key) && p < |order|
    ensures j in order[..p] <==> j in order && Before(key, j, order[p])
    ensures NoDuplicates(order)
  {
    if j in order && Before(key, j, order[p]) {
      var q :| 0 <= q < |order| && order[q] == j;
      assert order[..p][q] == j;
    }
  }

  lemma FrontHas(order: seq<nat>, n: nat, p: nat)
    requires NoDuplicates(order) && n <= |order| && p < |order|
    ensures order[p] in order[..n] <==> p < n
  {
    if p < n { assert order[..n][p] == order[p]; }
  }

  /** A waiting entry is chosen exactly if fewer than the free places are before it. */
  lemma ChosenIff(entries: seq<Entry>, performance: string, i: nat)
    requires i < |entries| && entries[i].performance == performance && entries[i].status == Waiting
    ensures i in Chosen(entries, performance) <==> |WaitingBefore(entries, i)| < FreeSlots(entries, performance)
  {
    hide FreeSlots, Sort, Ordered, NoDuplicates;
    var ids, key, free := WaitingIds(entries, performance), EnteredAt(entries), FreeSlots(entries, performance);
    SortOrders(ids, key);
    var order := WaitingOrder(entries, performance);
    assert i in order;
    var p :| 0 <= p < |order| && order[p] == i;
    forall j: nat ensures j in order[..p] <==> j in WaitingBefore(entries, i) { FrontIsBefore(order, key, p, j); }
    assert Members(order[..p]) == WaitingBefore(entries, i);
    FrontIsBefore(order, key, p, i);
    FrontOfDistinct(order, p);
    MembersCounted(order[..p]);
    FrontHas(order, if free < |order| then free else |order|, p);
  }

  lemma FrontOfDistinct(order: seq<nat>, p: nat)
    requires NoDuplicates(order) && p <= |order|
    ensures NoDuplicates(order[..p])
  {
  }

  /**
   One reconciliation, entry by entry.  An ADMITTED entry of the performance is EXPIRED afterwards exactly if its window is
   over; a WAITING one is let in, for ten minutes from now, exactly if fewer than fifty stay or wait before it; and every
   other entry, of this performance or another, is as it was.
   */
  lemma ReconcileAnswers(entries: seq<Entry>, performance: string, now: int, i: nat)
    requires i < |entries|
    ensures var e, r := entries[i], Reconcile(entries, performance, now);
            && |r| == |entries|
            && r[i] == if e.performance == performance && e.status == Admitted && WindowOver(e, now) then e.(status := Expired)
                       else if e.performance == performance && e.status == Waiting
                               && |Staying(entries, performance, now)| + |WaitingBefore(entries, i)| < 50
                       then e.(status := Admitted, admittedAt := Some(now), admissionExpiresAt := Some(now + 600000))
                       else e
  {
    hide Reconcile, Chosen, Staying, WaitingBefore, Count;
    var lapsed := LapseAll(entries, performance, now);
    ReconcileMoves(entries, performance, now);
    StayingCounted(entries, performance, now);
    SameBefore(entries, performance, now, i);
    if entries[i].performance == performance && entries[i].status == Waiting { ChosenIff(lapsed, performance, i); }
  }

  lemma SameBefore(entries: seq<Entry>, performance: string, now: int, i: nat)
    requires i < |entries|
    ensures WaitingBefore(LapseAll(entries, performance, now), i) == WaitingBefore(entries, i)
  {
  }

  // ----------------------------------------------------------------------------------------- the handlers

  predicate IsLive(e: Entry, userId: UserId, performance: string) {
    e.userId == userId && e.performance == performance && (e.status == Waiting || e.status == Admitted)
  }

  lemma {:induction false} FirstLive(entries: seq<Entry>, userId: UserId, performance: string)
    ensures var found := FindLive(entries, userId, performance);
            && (found.Some? <==> exists i :: 0 <= i < |entries| && IsLive(entries[i], userId, performance))
            && (found.Some? ==> forall i :: 0 <= i < found.value ==> !IsLive(entries[i], userId, performance))
  {
    if entries != [] {
      var init := entries[..|entries| - 1];
      FirstLive(init, userId, performance);
      assert forall i :: 0 <= i < |init| ==> init[i] == entries[i];
    }
  }

  /** Entering takes the user's live entry for the performance if there is one, else puts a new one at the end. */
  lemma EnterAnswers(entries: seq<Entry>, userExists: bool, userId: UserId, performance: string, now: int, k: nat)
    ensures var r := EnterOutcome(entries, userExists, userId, performance, now);
            && (r.result == Err(UserNotFound) <==> !userExists)
            && (r.result == Err(MissingField) <==> userExists && performance == "")
            && (r.result.Err? <==> !userExists || performance == "")
            && (r.result.Err? ==> r.entries == entries)
            && (userExists && performance != "" && k < |entries| && IsLive(entries[k], userId, performance)
                && (forall i :: 0 <= i < k ==> !IsLive(entries[i], userId, performance)) ==>
                  r.result == Ok(k) && r.entries == Reconcile(entries, performance, now))
            && (userExists && performance != "" && (forall i :: 0 <= i < |entries| ==> !IsLive(entries[i], userId, performance)) ==>
                  r.result == Ok(|entries|)
                  && r.entries == Reconcile(entries + [Entry(userId, performance, Waiting, None, None, now)], performance, now))
  {
    FirstLive(entries, userId, performance);
    hide FindLive, Reconcile;
  }

  /** An entry is shown to its user, after a reconciliation of its performance. */
  lemma GetAnswers(entries: seq<Entry>, userId: UserId, id: nat, now: int)
    ensures var r := GetOutcome(entries, userId, id, now);
            && r.result == (if id >= |entries| then Err(EntryNotFound) else if entries[id].userId != userId then Err(NotOwner) else Ok(id))
            && r.entries == if r.result.Ok? then Reconcile(entries, entries[id].performance, now) else entries
  {
    hide Reconcile;
  }

  /** Leaving is for the entry's user: a WAITING or ADMITTED entry is LEFT, and the place goes to the next at once. */
  lemma LeaveAnswers(entries: seq<Entry>, userId: UserId, id: nat, now: int)
    ensures var r := LeaveOutcome(entries, userId, id, now);
            && r.result == (if id >= |entries| then Err(EntryNotFound) else if entries[id].userId != userId then Err(NotOwner) else Ok(id))
            && (r.result.Err? ==> r.entries == entries)
            && (r.result.Ok? ==>
                  var left := entries[id := if entries[id].status in {Waiting, Admitted} then entries[id].(status := Left) else entries[id]];
                  && r.entries == Reconcile(left, entries[id].performance, now)
                  && |r.entries| == |entries| && r.entries[id] == left[id])
  {
    if id < |entries| {
      var left := entries[id := if entries[id].status in {Waiting, Admitted} then entries[id].(status := Left) else entries[id]];
      ReconcileAnswers(left, entries[id].performance, now, id);
      assert entries[id].status !in {Waiting, Admitted} ==> left == entries;
    }
    hide Reconcile;
  }

  function EarlierWaiting(entries: seq<Entry>, performance: string, enteredAt: int): set<nat> {
    set j: nat | j < |entries| && entries[j].performance == performance && entries[j].status == Waiting && entries[j].enteredAt < enteredAt
  }

  lemma EarlierLast(init: seq<Entry>, last: Entry, performance: string, enteredAt: int)
    ensures EarlierWaiting(init + [last], performance, enteredAt)
            == EarlierWaiting(init, performance, enteredAt)
               + (if last.performance == performance && last.status == Waiting && last.enteredAt < enteredAt then {|init|} else {})
  {
  }

  lemma {:induction false} AheadIsSize(entries: seq<Entry>, performance: string, enteredAt: int)
    ensures Ahead(entries, performance, enteredAt) == |EarlierWaiting(entries, performance, enteredAt)|
  {
    if entries == [] {
      assert EarlierWaiting(entries, performance, enteredAt) == {};
    } else {
      var init, last := entries[..|entries| - 1], entries[|entries| - 1];
      AheadIsSize(init, performance, enteredAt);
      EarlierLast(init, last, performance, enteredAt);
      assert entries == init + [last] && |init| !in EarlierWaiting(init, performance, enteredAt);
      hide EarlierWaiting;
    }
  }

  /** The position shown is one more than the number of those who wait since before, and 0 for who does not wait. */
  lemma PositionAnswers(entries: seq<Entry>, i: nat)
    requires i < |entries|
    ensures Position(entries, i)
            == if entries[i].status == Waiting then |EarlierWaiting(entries, entries[i].performance, entries[i].enteredAt)| + 1 else 0
  {
    AheadIsSize(entries, entries[i].performance, entries[i].enteredAt);
  }

  /**
   Who enters is waiting or in afterwards exactly if the entry taken is not an ADMITTED one whose window is over: such an
   entry still counts as the user's own, is closed as EXPIRED on the way, and no new one is put in its place.
   */
  lemma EnteredIsLiveIff(entries: seq<Entry>, userId: UserId, performance: string, now: int, k: nat)
    requires performance != "" && k < |entries| && IsLive(entries[k], userId, performance)
    requires forall i :: 0 <= i < k ==> !IsLive(entries[i], userId, performance)
    ensures var r := EnterOutcome(entries, true, userId, performance, now);
            && r.result == Ok(k) && |r.entries| == |entries|
            && (IsLive(r.entries[k], userId, performance) <==> !(entries[k].status == Admitted && WindowOver(entries[k], now)))
  {
    EnterAnswers(entries, true, userId, performance, now, k);
    ReconcileAnswers(entries, performance, now, k);
    hide Reconcile, EnterOutcome;
  }
}
