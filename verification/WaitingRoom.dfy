/** The waiting room in front of seat selection (backend/booking-holds.js): at most fifty people in, first come first served. */
module WaitingRoom {
  import opened Prelude
  import opened StableSort

  type UserId = nat

  datatype EntryStatus = Waiting | Admitted | Expired | Left

  datatype Entry = Entry(
    userId: UserId, performance: string, status: EntryStatus,
    admittedAt: Option<int>, admissionExpiresAt: Option<int>, enteredAt: int)

  datatype QueueError = UserNotFound | MissingField | EntryNotFound | NotOwner

  const QUEUE_ADMIT_CONCURRENCY := 50
  const QUEUE_ADMISSION_WINDOW_MS := 10 * 60 * 1000

  // -------------------------------------------------------------------------------- reconcileQueue

  function Lapse(e: Entry, performance: string, now: int): Entry {
    if e.performance == performance && e.status.Admitted? && e.admissionExpiresAt.Some? && e.admissionExpiresAt.value <= now
    then e.(status := Expired) else e
  }

  function LapseAll(entries: seq<Entry>, performance: string, now: int): (r: seq<Entry>)
    ensures |r| == |entries|
  {
    seq(|entries|, i requires 0 <= i < |entries| => Lapse(entries[i], performance, now))
  }

  function Count(entries: seq<Entry>, performance: string, status: EntryStatus): nat {
    if entries == [] then 0
    else
      var last := entries[|entries| - 1];
      Count(entries[..|entries| - 1], performance, status) + (if last.performance == performance && last.status == status then 1 else 0)
  }

  /** Positions of the performance's WAITING entries, in array order. */
  function WaitingIds(entries: seq<Entry>, performance: string): (r: seq<nat>)
    ensures Increasing(r)
    ensures forall i :: i in r <==> 0 <= i < |entries| && entries[i].performance == performance && entries[i].status.Waiting?
    ensures |r| == Count(entries, performance, Waiting)
  {
    if entries == [] then []
    else
      var last := |entries| - 1;
      var before := WaitingIds(entries[..last], performance);
      assert forall j :: 0 <= j < |before| ==> before[j] in before;
      if entries[last].performance == performance && entries[last].status.Waiting? then before + [last] else before
  }

  function EnteredAt(entries: seq<Entry>): nat -> int {
    (i: nat) => if i < |entries| then entries[i].enteredAt else 0
  }

  /** The waiting list in the order it is admitted. */
  function WaitingOrder(entries: seq<Entry>, performance: string): seq<nat> {
    Sort(WaitingIds(entries, performance), EnteredAt(entries))
  }

  function AdmittedEntry(e: Entry, now: int): Entry {
    e.(status := Admitted, admittedAt := Some(now), admissionExpiresAt := Some(now + QUEUE_ADMISSION_WINDOW_MS))
  }

  function AdmitAll(entries: seq<Entry>, ids: seq<nat>, now: int): (r: seq<Entry>)
    requires forall k :: 0 <= k < |ids| ==> ids[k] < |entries|
    ensures |r| == |entries|
  {
    if ids == [] then entries
    else
      var last := ids[|ids| - 1];
      var before := AdmitAll(entries, ids[..|ids| - 1], now);
      before[last := AdmittedEntry(before[last], now)]
  }

  function FreeSlots(entries: seq<Entry>, performance: string): nat {
    var admitted := Count(entries, performance, Admitted);
    if admitted < QUEUE_ADMIT_CONCURRENCY then QUEUE_ADMIT_CONCURRENCY - admitted else 0
  }

  function Chosen(entries: seq<Entry>, performance: string): (r: seq<nat>)
    ensures forall i :: i in r ==> i < |entries| && entries[i].performance == performance && entries[i].status.Waiting?
    ensures forall k :: 0 <= k < |r| ==> r[k] in r
  {
    var order, free := WaitingOrder(entries, performance), FreeSlots(entries, performance);
    SortOrders(WaitingIds(entries, performance), EnteredAt(entries));
    var chosen := order[..if free < |order| then free else |order|];
    assert forall i :: i in chosen ==> i in order;
    chosen
  }

  function Reconcile(entries: seq<Entry>, performance: string, now: int): (r: seq<Entry>)
    ensures |r| == |entries|
  {
    var lapsed := LapseAll(entries, performance, now);
    AdmitAll(lapsed, Chosen(lapsed, performance), now)
  }

  /** `queuePosition` */
  function Position(entries: seq<Entry>, i: nat): nat
    requires i < |entries|
  {
    if !entries[i].status.Waiting? then 0 else Ahead(entries, entries[i].performance, entries[i].enteredAt) + 1
  }

  function Ahead(entries: seq<Entry>, performance: string, enteredAt: int): nat {
    if entries == [] then 0
    else
      var last := entries[|entries| - 1];
      Ahead(entries[..|entries| - 1], performance, enteredAt)
      + (if last.performance == performance && last.status.Waiting? && last.enteredAt < enteredAt then 1 else 0)
  }

  // --------------------------------------------------------------------------------------- handlers

  predicate Live(e: Entry) {
    e.status.Waiting? || e.status.Admitted?
  }

  function FindLive(entries: seq<Entry>, userId: UserId, performance: string): (r: Option<nat>)
    ensures r.Some? ==> r.value < |entries| && Live(entries[r.value])
                        && entries[r.value].userId == userId && entries[r.value].performance == performance
    ensures r.None? ==> forall i :: 0 <= i < |entries| && Live(entries[i]) && entries[i].userId == userId ==> entries[i].performance != performance
  {
    if entries == [] then None
    else
      var last := |entries| - 1;
      var earlier := FindLive(entries[..last], userId, performance);
      if earlier.Some? then earlier
      else if Live(entries[last]) && entries[last].userId == userId && entries[last].performance == performance then Some(last)
      else None
  }

  datatype Step =
    | Enter(userId: UserId, performance: string)
    | Get(userId: UserId, id: nat)
    | Leave(userId: UserId, id: nat)

  datatype Outcome = Outcome(entries: seq<Entry>, result: Result<nat, QueueError>)

  function EnterOutcome(entries: seq<Entry>, userExists: bool, userId: UserId, performance: string, now: int): Outcome {
    if !userExists then Outcome(entries, Err(UserNotFound))
    else if performance == "" then Outcome(entries, Err(MissingField))
    else
      var live := FindLive(entries, userId, performance);
      if live.Some? then Outcome(Reconcile(entries, performance, now), Ok(live.value))
      else Outcome(Reconcile(entries + [Entry(userId, performance, Waiting, None, None, now)], performance, now), Ok(|entries|))
  }

  function GetOutcome(entries: seq<Entry>, userId: UserId, id: nat, now: int): Outcome {
    if id >= |entries| then Outcome(entries, Err(EntryNotFound))
    else if entries[id].userId != userId then Outcome(entries, Err(NotOwner))
    else Outcome(Reconcile(entries, entries[id].performance, now), Ok(id))
  }

  function LeaveOutcome(entries: seq<Entry>, userId: UserId, id: nat, now: int): Outcome {
    if id >= |entries| then Outcome(entries, Err(EntryNotFound))
    else if entries[id].userId != userId then Outcome(entries, Err(NotOwner))
    else
      var left := if Live(entries[id]) then entries[id := entries[id].(status := Left)] else entries;
      Outcome(Reconcile(left, entries[id].performance, now), Ok(id))
  }

  function Apply(entries: seq<Entry>, users: set<UserId>, step: Step, now: int): Outcome {
    match step
    case Enter(u, p) => EnterOutcome(entries, u in users, u, p, now)
    case Get(u, id) => GetOutcome(entries, u, id, now)
    case Leave(u, id) => LeaveOutcome(entries, u, id, now)
  }

  // ------------------------------------------------------------------------------------ invariants

  /** The array is in the order of arrival; nobody arrived later than now. */
  ghost predicate InOrder(entries: seq<Entry>, now: int) {
    && (forall i, j :: 0 <= i < j < |entries| ==> entries[i].enteredAt <= entries[j].enteredAt)
    && (forall i :: 0 <= i < |entries| ==> entries[i].enteredAt <= now)
  }

  /** Nobody behind a waiting entry has ever been admitted. */
  ghost predicate Fair(entries: seq<Entry>) {
    && (forall i, j :: 0 <= i < j < |entries| && entries[i].performance == entries[j].performance && entries[i].status.Waiting? ==>
          entries[j].admittedAt.None?)
    && (forall i :: 0 <= i < |entries| && entries[i].status.Waiting? ==> entries[i].admittedAt.None?)
    && (forall i :: 0 <= i < |entries| && entries[i].status.Admitted? ==>
          entries[i].admittedAt.Some? && entries[i].admissionExpiresAt.Some?)
  }

  ghost predicate OneLive(entries: seq<Entry>) {
    forall i, j :: 0 <= i < j < |entries| && Live(entries[i]) && Live(entries[j]) && entries[i].userId == entries[j].userId ==>
      entries[i].performance != entries[j].performance
  }

  /** At most fifty admitted, and exactly fifty while anyone waits. */
  ghost predicate Full(entries: seq<Entry>, performance: string) {
    && Count(entries, performance, Admitted) <= 50
    && (Count(entries, performance, Waiting) > 0 ==> Count(entries, performance, Admitted) == 50)
  }

  ghost predicate RoomInv(entries: seq<Entry>, now: int) {
    InOrder(entries, now) && Fair(entries) && OneLive(entries) && forall p :: Full(entries, p)
  }

  // -------------------------------------------------------------------------------------- counting

  lemma {:induction false} CountSame(a: seq<Entry>, b: seq<Entry>, performance: string, status: EntryStatus)
    requires |a| == |b|
    requires forall i :: 0 <= i < |a| ==>
      ((a[i].performance == performance && a[i].status == status) <==> (b[i].performance == performance && b[i].status == status))
    ensures Count(a, performance, status) == Count(b, performance, status)
  {
    if a != [] { CountSame(a[..|a| - 1], b[..|b| - 1], performance, status); }
  }

  lemma {:induction false} CountFewer(a: seq<Entry>, b: seq<Entry>, performance: string, status: EntryStatus)
    requires |a| == |b|
    requires forall i :: 0 <= i < |a| && a[i].performance == performance && a[i].status == status ==>
      b[i].performance == performance && b[i].status == status
    ensures Count(a, performance, status) <= Count(b, performance, status)
  {
    if a != [] { CountFewer(a[..|a| - 1], b[..|b| - 1], performance, status); }
  }

  lemma {:induction false} CountUpdate(a: seq<Entry>, i: nat, e: Entry, performance: string, status: EntryStatus)
    requires i < |a|
    ensures Count(a[i := e], performance, status) == Count(a, performance, status)
              - (if a[i].performance == performance && a[i].status == status then 1 else 0)
              + (if e.performance == performance && e.status == status then 1 else 0)
  {
    var last := |a| - 1;
    if i == last {
      assert a[i := e][..last] == a[..last];
    } else {
      assert a[i := e][..last] == a[..last][i := e];
      CountUpdate(a[..last], i, e, performance, status);
    }
  }

  lemma CountAppend(a: seq<Entry>, e: Entry, performance: string, status: EntryStatus)
    ensures Count(a + [e], performance, status)
            == Count(a, performance, status) + (if e.performance == performance && e.status == status then 1 else 0)
  {
    assert (a + [e])[..|a|] == a;
  }

  // ------------------------------------------------------------------------------------- admission

  ghost predicate Waiters(entries: seq<Entry>, ids: seq<nat>, performance: string) {
    && NoDuplicates(ids)
    && forall k :: 0 <= k < |ids| ==>
         ids[k] < |entries| && entries[ids[k]].performance == performance && entries[ids[k]].status.Waiting?
  }

  lemma WaitersPrefix(entries: seq<Entry>, ids: seq<nat>, performance: string, last: nat)
    requires ids != [] && Waiters(entries, ids, performance) && last == ids[|ids| - 1]
    ensures Waiters(entries, ids[..|ids| - 1], performance)
    ensures last !in ids[..|ids| - 1] && last < |entries| && entries[last].performance == performance && entries[last].status.Waiting?
    ensures ids == ids[..|ids| - 1] + [last]
  {
    assert last in ids;
  }

  /** Admitting a list of waiting entries moves exactly them, each from WAITING to ADMITTED. */
  lemma {:induction false} AdmitAllMoves(entries: seq<Entry>, ids: seq<nat>, performance: string, now: int)
    requires Waiters(entries, ids, performance)
    ensures var r := AdmitAll(entries, ids, now);
            && (forall i :: 0 <= i < |entries| ==> r[i] == if i in ids then AdmittedEntry(entries[i], now) else entries[i])
            && Count(r, performance, Admitted) == Count(entries, performance, Admitted) + |ids|
            && Count(r, performance, Waiting) == Count(entries, performance, Waiting) - |ids|
  {
    if ids != [] {
      var last := ids[|ids| - 1];
      WaitersPrefix(entries, ids, performance, last);
      AdmitAllMoves(entries, ids[..|ids| - 1], performance, now);
      var before := AdmitAll(entries, ids[..|ids| - 1], now);
      CountUpdate(before, last, AdmittedEntry(before[last], now), performance, Admitted);
      CountUpdate(before, last, AdmittedEntry(before[last], now), performance, Waiting);
    }
  }

  /** The chosen are the front of the waiting list: distinct, no more than the free slots, everyone if there is room. */
  lemma ChosenAreFirst(entries: seq<Entry>, performance: string)
    ensures var chosen := Chosen(entries, performance);
            && Waiters(entries, chosen, performance)
            && |chosen| <= FreeSlots(entries, performance)
            && (|chosen| == FreeSlots(entries, performance) || |chosen| == Count(entries, performance, Waiting))
            && |chosen| <= Count(entries, performance, Waiting)
            && forall a, b :: a in chosen && b !in chosen && b in WaitingIds(entries, performance) ==> Before(EnteredAt(entries), a, b)
  {
    var ids, key := WaitingIds(entries, performance), EnteredAt(entries);
    SortOrders(ids, key);
    var order, chosen := Sort(ids, key), Chosen(entries, performance);
    forall a, b | a in chosen && b !in chosen && b in ids ensures Before(key, a, b) {
      assert b in order;
      var i :| 0 <= i < |chosen| && chosen[i] == a;
      var j :| 0 <= j < |order| && order[j] == b;
      assert forall k :: 0 <= k < |chosen| ==> chosen[k] in chosen && chosen[k] == order[k];
    }
  }

  /** What one reconciliation does to each entry. */
  lemma ReconcileMoves(entries: seq<Entry>, performance: string, now: int)
    ensures var r, lapsed := Reconcile(entries, performance, now), LapseAll(entries, performance, now);
            forall i :: 0 <= i < |entries| ==>
              r[i] == if i in Chosen(lapsed, performance) then AdmittedEntry(entries[i], now) else Lapse(entries[i], performance, now)
  {
    var lapsed := LapseAll(entries, performance, now);
    ChosenAreFirst(lapsed, performance);
    AdmitAllMoves(lapsed, Chosen(lapsed, performance), performance, now);
  }

  /**
   First come, first served, whatever the entries: whoever is still waiting after a reconciliation did not arrive
   strictly before anyone it admitted.
   */
  lemma AdmissionIsFifo(entries: seq<Entry>, performance: string, now: int, i: nat, j: nat)
    requires i < |entries| && j < |entries|
    requires entries[i].performance == performance && entries[j].performance == performance
    requires var r := Reconcile(entries, performance, now);
             r[i].status.Waiting? && entries[j].status.Waiting? && r[j].status.Admitted?
    ensures entries[j].enteredAt < entries[i].enteredAt || (entries[j].enteredAt == entries[i].enteredAt && j < i)
  {
    var lapsed := LapseAll(entries, performance, now);
    ReconcileMoves(entries, performance, now);
    ChosenAreFirst(lapsed, performance);
    assert i in WaitingIds(lapsed, performance);
    assert Before(EnteredAt(lapsed), j, i);
  }

  /** A reconciliation fills the room: afterwards fifty are in, or nobody waits. */
  lemma ReconcileFills(entries: seq<Entry>, performance: string, now: int)
    requires Count(entries, performance, Admitted) <= 50
    ensures Full(Reconcile(entries, performance, now), performance)
  {
    var lapsed := LapseAll(entries, performance, now);
    CountFewer(lapsed, entries, performance, Admitted);
    ChosenAreFirst(lapsed, performance);
    AdmitAllMoves(lapsed, Chosen(lapsed, performance), performance, now);
  }

  lemma ReconcileElsewhere(entries: seq<Entry>, performance: string, now: int, other: string)
    requires other != performance && Full(entries, other)
    ensures Full(Reconcile(entries, performance, now), other)
  {
    ReconcileMoves(entries, performance, now);
    CountSame(entries, Reconcile(entries, performance, now), other, Admitted);
    CountSame(entries, Reconcile(entries, performance, now), other, Waiting);
  }

  lemma ReconcileKeepsFair(entries: seq<Entry>, performance: string, now: int)
    requires InOrder(entries, now) && Fair(entries)
    ensures Fair(Reconcile(entries, performance, now))
  {
    var r := Reconcile(entries, performance, now);
    ReconcileMoves(entries, performance, now);
    forall i, j | 0 <= i < j < |r| && r[i].performance == r[j].performance && r[i].status.Waiting?
      ensures r[j].admittedAt.None?
    {
      assert entries[i].status.Waiting? && entries[j].admittedAt.None?;
      if r[j].admittedAt.Some? {
        assert r[j].status.Admitted? && entries[j].status.Waiting?;
        AdmissionIsFifo(entries, performance, now, i, j);
      }
    }
  }

  lemma ReconcileKeepsOrder(entries: seq<Entry>, performance: string, now: int)
    requires InOrder(entries, now) && OneLive(entries)
    ensures InOrder(Reconcile(entries, performance, now), now) && OneLive(Reconcile(entries, performance, now))
  {
    hide Reconcile;
    forall i | 0 <= i < |entries| ensures NoNewLife(entries[i], Reconcile(entries, performance, now)[i]) {
      ReconcileMoves(entries, performance, now);
    }
  }

  /** An entry keeps its person, performance and arrival time, and never starts waiting or comes back to life. */
  predicate NoNewLife(a: Entry, b: Entry) {
    b.userId == a.userId && b.performance == a.performance && b.enteredAt == a.enteredAt
    && (Live(b) ==> Live(a)) && (b.status.Waiting? ==> a.status.Waiting?)
  }

  lemma ReconcileKeeps(entries: seq<Entry>, performance: string, now: int)
    requires InOrder(entries, now) && Fair(entries) && OneLive(entries)
    requires Count(entries, performance, Admitted) <= 50
    requires forall p :: p != performance ==> Full(entries, p)
    ensures RoomInv(Reconcile(entries, performance, now), now)
  {
    hide InOrder, Fair, OneLive, Full, Reconcile;
    ReconcileKeepsOrder(entries, performance, now);
    ReconcileKeepsFair(entries, performance, now);
    ReconcileFills(entries, performance, now);
    forall p | p != performance ensures Full(Reconcile(entries, performance, now), p) {
      ReconcileElsewhere(entries, performance, now, p);
    }
  }

  lemma AppendCounts(entries: seq<Entry>, e: Entry, p: string)
    requires Full(entries, p) && e.status.Waiting?
    ensures Count(entries + [e], p, Admitted) <= 50
    ensures p != e.performance ==> Full(entries + [e], p)
  {
    CountAppend(entries, e, p, Admitted);
    CountAppend(entries, e, p, Waiting);
  }

  lemma AppendInOrder(entries: seq<Entry>, e: Entry, now: int)
    requires InOrder(entries, now) && e.enteredAt == now
    ensures InOrder(entries + [e], now)
  {
  }

  lemma AppendFair(entries: seq<Entry>, e: Entry)
    requires Fair(entries) && e.status.Waiting? && e.admittedAt.None?
    ensures Fair(entries + [e])
  {
  }

  lemma AppendOneLive(entries: seq<Entry>, e: Entry)
    requires OneLive(entries) && FindLive(entries, e.userId, e.performance).None?
    ensures OneLive(entries + [e])
  {
    var r := entries + [e];
    hide FindLive;
    forall i, j | 0 <= i < j < |r| && Live(r[i]) && Live(r[j]) && r[i].userId == r[j].userId
      ensures r[i].performance != r[j].performance
    {
      assert r[i] == entries[i];
    }
  }

  lemma AppendKeeps(entries: seq<Entry>, userId: UserId, performance: string, now: int)
    requires RoomInv(entries, now) && FindLive(entries, userId, performance).None?
    ensures var e := Entry(userId, performance, Waiting, None, None, now);
            var r := entries + [e];
            InOrder(r, now) && Fair(r) && OneLive(r)
            && Count(r, performance, Admitted) <= 50
            && forall p :: p != performance ==> Full(r, p)
  {
    hide InOrder, Fair, OneLive, Full, FindLive, Count;
    var e := Entry(userId, performance, Waiting, None, None, now);
    AppendInOrder(entries, e, now);
    AppendFair(entries, e);
    AppendOneLive(entries, e);
    assert Full(entries, performance);
    AppendCounts(entries, e, performance);
    forall p | p != performance ensures Full(entries + [e], p) {
      assert Full(entries, p);
      AppendCounts(entries, e, p);
    }
  }

  lemma LeaveKeeps(entries: seq<Entry>, id: nat, now: int)
    requires RoomInv(entries, now) && id < |entries| && Live(entries[id])
    ensures var r := entries[id := entries[id].(status := Left)];
            InOrder(r, now) && Fair(r) && OneLive(r)
            && Count(r, entries[id].performance, Admitted) <= 50
            && forall p :: p != entries[id].performance ==> Full(r, p)
  {
    var r := entries[id := entries[id].(status := Left)];
    assert Full(entries, entries[id].performance);
    CountFewer(r, entries, entries[id].performance, Admitted);
    forall p | p != entries[id].performance ensures Full(r, p) {
      assert Full(entries, p);
      CountSame(entries, r, p, Admitted);
      CountSame(entries, r, p, Waiting);
    }
  }

  lemma LaterIsInOrder(entries: seq<Entry>, earlier: int, now: int)
    requires RoomInv(entries, earlier) && earlier <= now
    ensures RoomInv(entries, now)
  {
  }

  /** Every handler keeps the room full, fair and without double entries. */
  lemma StepKeeps(entries: seq<Entry>, users: set<UserId>, step: Step, now: int)
    requires RoomInv(entries, now)
    ensures RoomInv(Apply(entries, users, step, now).entries, now)
  {
    hide Reconcile, InOrder, Fair, OneLive;
    match step
    case Enter(u, p) =>
      assert Full(entries, p);
      if FindLive(entries, u, p).Some? { ReconcileKeeps(entries, p, now); }
      else {
        AppendKeeps(entries, u, p, now);
        ReconcileKeeps(entries + [Entry(u, p, Waiting, None, None, now)], p, now);
      }
    case Get(u, id) =>
      if id < |entries| {
        assert Full(entries, entries[id].performance);
        ReconcileKeeps(entries, entries[id].performance, now);
      }
    case Leave(u, id) =>
      if id < |entries| {
        assert Full(entries, entries[id].performance);
        if Live(entries[id]) {
          LeaveKeeps(entries, id, now);
          ReconcileKeeps(entries[id := entries[id].(status := Left)], entries[id].performance, now);
        } else {
          ReconcileKeeps(entries, entries[id].performance, now);
        }
      }
  }

  // ------------------------------------------------------------------------------------- positions

  /** Entries present before are still the same people's, in the same places, and none of them started waiting again. */
  ghost predicate Carries(a: seq<Entry>, b: seq<Entry>) {
    |a| <= |b| && forall i :: 0 <= i < |a| ==> NoNewLife(a[i], b[i])
  }

  lemma {:induction false} AheadFewer(a: seq<Entry>, b: seq<Entry>, performance: string, enteredAt: int)
    requires |a| == |b| && Carries(a, b)
    ensures Ahead(b, performance, enteredAt) <= Ahead(a, performance, enteredAt)
  {
    if a != [] {
      AheadFewer(a[..|a| - 1], b[..|b| - 1], performance, enteredAt);
    }
  }

  lemma {:induction false} LateComersBehind(a: seq<Entry>, more: seq<Entry>, performance: string, enteredAt: int)
    requires forall i :: 0 <= i < |more| ==> more[i].enteredAt >= enteredAt
    ensures Ahead(a + more, performance, enteredAt) == Ahead(a, performance, enteredAt)
  {
    if more == [] {
      assert a + more == a;
    } else {
      assert (a + more)[..|a + more| - 1] == a + more[..|more| - 1];
      LateComersBehind(a, more[..|more| - 1], performance, enteredAt);
    }
  }

  lemma ReconcileCarries(entries: seq<Entry>, performance: string, now: int)
    ensures Carries(entries, Reconcile(entries, performance, now))
  {
    ReconcileMoves(entries, performance, now);
  }

  lemma StepCarries(entries: seq<Entry>, users: set<UserId>, step: Step, now: int)
    ensures var r := Apply(entries, users, step, now).entries;
            Carries(entries, r) && forall i :: |entries| <= i < |r| ==> r[i].enteredAt == now
  {
    hide Reconcile;
    match step
    case Enter(u, p) =>
      ReconcileCarries(entries, p, now);
      ReconcileCarries(entries + [Entry(u, p, Waiting, None, None, now)], p, now);
    case Get(u, id) =>
      if id < |entries| { ReconcileCarries(entries, entries[id].performance, now); }
    case Leave(u, id) =>
      if id < |entries| {
        ReconcileCarries(entries, entries[id].performance, now);
        ReconcileCarries(entries[id := entries[id].(status := Left)], entries[id].performance, now);
      }
  }

  lemma PositionKept(a: seq<Entry>, b: seq<Entry>, now: int, i: nat)
    requires InOrder(a, now) && Carries(a, b) && i < |a| && forall k :: |a| <= k < |b| ==> b[k].enteredAt >= now
    ensures Position(b, i) <= Position(a, i)
  {
    AheadFewer(a, b[..|a|], a[i].performance, a[i].enteredAt);
    LateComersBehind(b[..|a|], b[|a|..], a[i].performance, a[i].enteredAt);
    assert b == b[..|a|] + b[|a|..];
  }

  // ------------------------------------------------------------------------------------- whole runs

  /** One handler, the clock it reads and the accounts there are at that moment. */
  datatype Turn = Turn(step: Step, now: int, users: set<UserId>)

  ghost predicate Timely(turns: seq<Turn>, start: int) {
    && (forall k :: 0 <= k < |turns| ==> start <= turns[k].now)
    && (forall j, k :: 0 <= j < k < |turns| ==> turns[j].now <= turns[k].now)
  }

  function After(entries: seq<Entry>, turns: seq<Turn>, n: nat): seq<Entry>
    requires n <= |turns|
  {
    if n == 0 then entries else Apply(After(entries, turns, n - 1), turns[n - 1].users, turns[n - 1].step, turns[n - 1].now).entries
  }

  function ClockAfter(turns: seq<Turn>, start: int, n: nat): int
    requires n <= |turns|
  {
    if n == 0 then start else turns[n - 1].now
  }

  /**
   In every state of every run: each performance has at most fifty people in, exactly fifty while anyone waits; a
   user has at most one live entry per performance; and nobody has been let in past someone still waiting.
   */
  lemma {:induction false} RoomIsAlwaysFull(entries: seq<Entry>, start: int, turns: seq<Turn>, n: nat)
    requires RoomInv(entries, start) && Timely(turns, start) && n <= |turns|
    ensures RoomInv(After(entries, turns, n), ClockAfter(turns, start, n))
  {
    hide RoomInv, Apply;
    if n > 0 {
      RoomIsAlwaysFull(entries, start, turns, n - 1);
      LaterIsInOrder(After(entries, turns, n - 1), ClockAfter(turns, start, n - 1), turns[n - 1].now);
      StepKeeps(After(entries, turns, n - 1), turns[n - 1].users, turns[n - 1].step, turns[n - 1].now);
    }
  }

  /** A place in the queue never gets worse: an entry's reported position never rises over a run. */
  lemma {:induction false} PositionNeverRises(
    entries: seq<Entry>, start: int, turns: seq<Turn>, n: nat, m: nat, i: nat)
    requires RoomInv(entries, start) && Timely(turns, start) && n <= m <= |turns|
    requires i < |After(entries, turns, n)|
    ensures i < |After(entries, turns, m)|
    ensures Position(After(entries, turns, m), i) <= Position(After(entries, turns, n), i)
  {
    hide RoomInv, Apply, Carries, InOrder, Position;
    if n < m {
      PositionNeverRises(entries, start, turns, n, m - 1, i);
      RoomIsAlwaysFull(entries, start, turns, m - 1);
      var a, b := After(entries, turns, m - 1), After(entries, turns, m);
      LaterIsInOrder(a, ClockAfter(turns, start, m - 1), turns[m - 1].now);
      PositionStep(a, turns[m - 1].users, turns[m - 1].step, turns[m - 1].now, i);
    }
  }

  lemma PositionStep(entries: seq<Entry>, users: set<UserId>, step: Step, now: int, i: nat)
    requires RoomInv(entries, now) && i < |entries|
    ensures var r := Apply(entries, users, step, now).entries;
            i < |r| && Position(r, i) <= Position(entries, i)
  {
    hide Apply;
    StepCarries(entries, users, step, now);
    PositionKept(entries, Apply(entries, users, step, now).entries, now, i);
  }

  // --------------------------------------------------------------------------- the room, in place

  /** The waiting list only names entries of the room, and its front is who is chosen. */
  lemma WaitingOrderFits(entries: seq<Entry>, performance: string)
    ensures var order, free := WaitingOrder(entries, performance), FreeSlots(entries, performance);
            (forall k :: 0 <= k < |order| ==> order[k] < |entries|)
            && Chosen(entries, performance) == order[..if free < |order| then free else |order|]
  {
    SortOrders(WaitingIds(entries, performance), EnteredAt(entries));
    var order := WaitingOrder(entries, performance);
    assert forall k :: 0 <= k < |order| ==> order[k] in order;
  }

  lemma AdmitNone(entries: seq<Entry>, ids: seq<nat>, now: int)
    ensures AdmitAll(entries, ids[..0], now) == entries
  {
  }

  lemma AdmitNext(entries: seq<Entry>, ids: seq<nat>, i: nat, now: int)
    requires i < |ids| && forall k :: 0 <= k < |ids| ==> ids[k] < |entries|
    ensures var before := AdmitAll(entries, ids[..i], now);
            AdmitAll(entries, ids[..i + 1], now) == before[ids[i] := AdmittedEntry(before[ids[i]], now)]
  {
    assert ids[..i + 1][..i] == ids[..i];
  }

  class Room {
    var entries: seq<Entry>

    constructor ()
      ensures entries == [] && forall now :: RoomInv(entries, now)
    {
      entries := [];
    }

    /** The first loop of `reconcileQueue`. */
    method LapseEntries(performance: string, now: int)
      modifies this
      ensures entries == LapseAll(old(entries), performance, now)
    {
      ghost var goal := LapseAll(entries, performance, now);
      for i := 0 to |entries|
        invariant |entries| == |goal|
        invariant forall k :: 0 <= k < i ==> entries[k] == goal[k]
        invariant forall k :: i <= k < |entries| ==> entries[k] == old(entries)[k]
      {
        var e := entries[i];
        if e.performance == performance && e.status.Admitted? && e.admissionExpiresAt.Some? && e.admissionExpiresAt.value <= now {
          entries := entries[i := e.(status := Expired)];
        }
      }
      assert entries == goal;
    }

    /** Its second loop: from the front of the waiting list until the slots run out. */
    method AdmitWaiting(performance: string, freeSlots: nat, now: int)
      requires freeSlots == FreeSlots(entries, performance)
      modifies this
      ensures entries == AdmitAll(old(entries), Chosen(old(entries), performance), now)
    {
      ghost var before := entries;
      var waiting := WaitingOrder(entries, performance);
      WaitingOrderFits(entries, performance);
      AdmitNone(before, waiting, now);
      hide WaitingOrder, AdmitAll, Count;
      var i, free := 0, freeSlots;
      while i < |waiting| && free > 0
        invariant i <= |waiting| && free == freeSlots - i && free >= 0
        invariant entries == AdmitAll(before, waiting[..i], now)
      {
        var id := waiting[i];
        AdmitNext(before, waiting, i, now);
        entries := entries[id := entries[id].(
          status := Admitted, admittedAt := Some(now), admissionExpiresAt := Some(now + QUEUE_ADMISSION_WINDOW_MS))];
        i := i + 1;
        free := free - 1;
      }
    }

    /** `reconcileQueue` */
    method ReconcileQueue(performance: string, now: int)
      modifies this
      ensures entries == Reconcile(old(entries), performance, now)
    {
      LapseEntries(performance, now);
      var freeSlots := QUEUE_ADMIT_CONCURRENCY - Count(entries, performance, Admitted);
      if freeSlots > 0 {
        AdmitWaiting(performance, freeSlots, now);
      } else {
        assert Chosen(entries, performance) == [];
      }
    }

    method EnterQueue(userExists: bool, userId: UserId, performance: string, now: int) returns (result: Result<nat, QueueError>)
      modifies this
      ensures Outcome(entries, result) == EnterOutcome(old(entries), userExists, userId, performance, now)
    {
      hide Reconcile;
      if !userExists { return Err(UserNotFound); }
      if performance == "" { return Err(MissingField); }
      var reusable := FindLive(entries, userId, performance);
      if reusable.None? {
        entries := entries + [Entry(userId, performance, Waiting, None, None, now)];
      }
      ReconcileQueue(performance, now);
      return Ok(if reusable.Some? then reusable.value else |entries| - 1);
    }

    method GetQueueEntry(userId: UserId, id: nat, now: int) returns (result: Result<nat, QueueError>)
      modifies this
      ensures Outcome(entries, result) == GetOutcome(old(entries), userId, id, now)
    {
      if id >= |entries| { return Err(EntryNotFound); }
      if entries[id].userId != userId { return Err(NotOwner); }
      ReconcileQueue(entries[id].performance, now);
      return Ok(id);
    }

    method LeaveQueue(userId: UserId, id: nat, now: int) returns (result: Result<nat, QueueError>)
      modifies this
      ensures Outcome(entries, result) == LeaveOutcome(old(entries), userId, id, now)
    {
      hide Reconcile;
      if id >= |entries| { return Err(EntryNotFound); }
      if entries[id].userId != userId { return Err(NotOwner); }
      if entries[id].status.Waiting? || entries[id].status.Admitted? {
        entries := entries[id := entries[id].(status := Left)];
      }
      ReconcileQueue(entries[id].performance, now);
      return Ok(id);
    }
  }
}
