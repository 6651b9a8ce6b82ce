/**
 The two retry runners: receipts that are pruned after seven days (backend/idempotent-mutation.js) and records that
 never expire and store an encoded response (backend/idempotency.js).  `S` is the database without its receipts;
 the handler being wrapped is a parameter, and may fail after having changed the database.
 */
module RetryReceipts {
  import opened Prelude

  /** The digests identify what they are computed from: (kind, user, key), and the payload. */
  datatype Key = Key(kind: string, userId: string, key: string)

  datatype Receipt<P, C> = Receipt(key: Key, payload: P, stored: C, createdAt: int)

  datatype State<S, P, C> = State(db: S, receipts: seq<Receipt<P, C>>)

  datatype Call<P> = Call(key: Key, payload: P, now: int)

  datatype Answer<R, E> = Answered(response: R) | Failed(error: E) | Conflict

  /** Which runner it is: how long receipts live, whether an empty key bypasses it, how responses are stored. */
  datatype Runner<!S, !P, !R, !C, E> = Runner(
    retention: Option<nat>,
    bypass: bool,
    encode: R -> C,
    decode: C -> R,
    mutate: (S, Key, P, int) -> (S, Result<R, E>))

  const RECEIPT_RETENTION_MS := 7 * 24 * 60 * 60 * 1000

  /** `idempotentMutation`: seven days, an empty key bypasses the receipts, responses are stored as they are. */
  function MutationRunner<S, P, R, E>(mutate: (S, Key, P, int) -> (S, Result<R, E>)): Runner<S, P, R, R, E> {
    Runner(Some(RECEIPT_RETENTION_MS), true, (r: R) => r, (r: R) => r, mutate)
  }

  /** `executeIdempotent`: records never expire and hold the encoded response. */
  function RecordRunner<S, P, R, C, E>(encode: R -> C, decode: C -> R, mutate: (S, Key, P, int) -> (S, Result<R, E>)): Runner<S, P, R, C, E> {
    Runner(None, false, encode, decode, mutate)
  }

  function Prune<P, C>(receipts: seq<Receipt<P, C>>, cutoff: int): seq<Receipt<P, C>> {
    if receipts == [] then []
    else
      var last := receipts[|receipts| - 1];
      Prune(receipts[..|receipts| - 1], cutoff) + (if last.createdAt >= cutoff then [last] else [])
  }

  function Pruned<P, C>(retention: Option<nat>, receipts: seq<Receipt<P, C>>, now: int): seq<Receipt<P, C>> {
    if retention.Some? then Prune(receipts, now - retention.value) else receipts
  }

  function Find<P, C>(receipts: seq<Receipt<P, C>>, key: Key): (r: Option<Receipt<P, C>>)
    ensures r.Some? ==> r.value in receipts && r.value.key == key
    ensures r.None? ==> forall x :: x in receipts ==> x.key != key
  {
    if receipts == [] then None
    else
      var last := receipts[|receipts| - 1];
      var earlier := Find(receipts[..|receipts| - 1], key);
      assert receipts == receipts[..|receipts| - 1] + [last];
      if earlier.Some? then earlier else if last.key == key then Some(last) else None
  }

  predicate Keyed<S, P, R, C, E>(m: Runner<S, P, R, C, E>, call: Call<P>) {
    !(m.bypass && call.key.key == "")
  }

  function Run<S, P(==), R, C, E>(m: Runner<S, P, R, C, E>, s: State<S, P, C>, call: Call<P>): (State<S, P, C>, Answer<R, E>) {
    if !Keyed(m, call) then
      var (db, r) := m.mutate(s.db, call.key, call.payload, call.now);
      (State(db, s.receipts), if r.Ok? then Answered(r.value) else Failed(r.error))
    else
      var receipts := Pruned(m.retention, s.receipts, call.now);
      var existing := Find(receipts, call.key);
      if existing.Some? then
        (State(s.db, receipts),
         if existing.value.payload == call.payload then Answered(m.decode(existing.value.stored)) else Conflict)
      else
        var (db, r) := m.mutate(s.db, call.key, call.payload, call.now);
        if r.Ok? then (State(db, receipts + [Receipt(call.key, call.payload, m.encode(r.value), call.now)]), Answered(r.value))
        else (State(db, receipts), Failed(r.error))
  }

  /** The runner answers this call from a receipt. */
  predicate IsReplay<S, P(==), R, C, E>(m: Runner<S, P, R, C, E>, s: State<S, P, C>, call: Call<P>) {
    Keyed(m, call)
    && var existing := Find(Pruned(m.retention, s.receipts, call.now), call.key);
       existing.Some? && existing.value.payload == call.payload
  }

  /** The runner calls the handler, which succeeds. */
  predicate Executes<S, P(==), R, C, E>(m: Runner<S, P, R, C, E>, s: State<S, P, C>, call: Call<P>) {
    Keyed(m, call) && Find(Pruned(m.retention, s.receipts, call.now), call.key).None?
    && m.mutate(s.db, call.key, call.payload, call.now).1.Ok?
  }

  // --------------------------------------------------------------------------------------- one call

  /** A retry key reused for another payload changes nothing; receipts that were due are pruned and that is all. */
  lemma ConflictChangesNothing<S, P, R, C, E>(m: Runner<S, P, R, C, E>, s: State<S, P, C>, call: Call<P>)
    ensures var (r, answer) := Run(m, s, call);
            answer.Conflict? ==> r == State(s.db, Pruned(m.retention, s.receipts, call.now))
  {
  }

  /** A handler that fails leaves no receipt, so the next attempt under the same key calls it again. */
  lemma FailureLeavesNoReceipt<S, P, R, C, E>(m: Runner<S, P, R, C, E>, s: State<S, P, C>, call: Call<P>)
    requires Keyed(m, call)
    ensures var (r, answer) := Run(m, s, call);
            answer.Failed? ==> forall x :: x in r.receipts ==> x.key != call.key
  {
  }

  // --------------------------------------------------------------------------------------- pruning

  lemma {:induction false} PruneMembers<P(!new), C(!new)>(receipts: seq<Receipt<P, C>>, cutoff: int)
    ensures forall x :: x in Prune(receipts, cutoff) <==> x in receipts && x.createdAt >= cutoff
  {
    if receipts != [] {
      var init := receipts[..|receipts| - 1];
      PruneMembers(init, cutoff);
      assert receipts == init + [receipts[|receipts| - 1]];
    }
  }

  lemma {:induction false} PruneTwice<P, C>(receipts: seq<Receipt<P, C>>, first: int, second: int)
    requires first <= second
    ensures Prune(Prune(receipts, first), second) == Prune(receipts, second)
  {
    if receipts != [] {
      var last := receipts[|receipts| - 1];
      PruneTwice(receipts[..|receipts| - 1], first, second);
      var before, once := Prune(receipts[..|receipts| - 1], first), Prune(receipts, first);
      if last.createdAt >= first {
        assert once == before + [last] && once[..|once| - 1] == before && once[|once| - 1] == last;
      } else {
        assert once == before;
      }
    }
  }

  lemma PrunedTwice<P, C>(retention: Option<nat>, receipts: seq<Receipt<P, C>>, first: int, second: int)
    requires first <= second
    ensures Pruned(retention, Pruned(retention, receipts, first), second) == Pruned(retention, receipts, second)
  {
    if retention.Some? { PruneTwice(receipts, first - retention.value, second - retention.value); }
  }

  // ------------------------------------------------------------------------------- runs and retries

  predicate Timely<P>(calls: seq<Call<P>>, start: int) {
    && (forall i :: 0 <= i < |calls| ==> start <= calls[i].now)
    && (forall i, j :: 0 <= i < j < |calls| ==> calls[i].now <= calls[j].now)
  }

  function RunAll<S, P(==), R, C, E>(m: Runner<S, P, R, C, E>, s: State<S, P, C>, calls: seq<Call<P>>): (r: (State<S, P, C>, seq<Answer<R, E>>))
    ensures |r.1| == |calls|
    decreases |calls|
  {
    if calls == [] then (s, [])
    else
      var (s1, answer) := Run(m, s, calls[0]);
      var (final, answers) := RunAll(m, s1, calls[1..]);
      (final, [answer] + answers)
  }

  /** Every call marked for erasure is one the runner answers from a receipt when its turn comes. */
  predicate OnlyReplays<S, P(==), R, C, E>(m: Runner<S, P, R, C, E>, s: State<S, P, C>, calls: seq<Call<P>>, erased: seq<bool>)
    requires |calls| == |erased|
    decreases |calls|
  {
    calls != [] ==> (erased[0] ==> IsReplay(m, s, calls[0])) && OnlyReplays(m, Run(m, s, calls[0]).0, calls[1..], erased[1..])
  }

  function Keep<T>(items: seq<T>, erased: seq<bool>): seq<T>
    requires |items| == |erased|
    decreases |items|
  {
    if items == [] then [] else (if erased[0] then [] else [items[0]]) + Keep(items[1..], erased[1..])
  }

  /** Same database, and the same receipts once those due by `now` are pruned. */
  ghost predicate Alike<S, P, C>(retention: Option<nat>, a: State<S, P, C>, b: State<S, P, C>, now: int) {
    a.db == b.db && Pruned(retention, a.receipts, now) == Pruned(retention, b.receipts, now)
  }

  lemma AlikeLater<S, P, C>(retention: Option<nat>, a: State<S, P, C>, b: State<S, P, C>, now: int, later: int)
    requires Alike(retention, a, b, now) && now <= later
    ensures Alike(retention, a, b, later)
  {
    PrunedTwice(retention, a.receipts, now, later);
    PrunedTwice(retention, b.receipts, now, later);
  }

  lemma AlikeRun<S, P, R, C, E>(m: Runner<S, P, R, C, E>, a: State<S, P, C>, b: State<S, P, C>, call: Call<P>)
    requires Alike(m.retention, a, b, call.now)
    ensures Run(m, a, call).1 == Run(m, b, call).1 && Alike(m.retention, Run(m, a, call).0, Run(m, b, call).0, call.now)
  {
    hide Prune, Pruned, Find;
  }

  lemma ReplayIsInvisible<S, P, R, C, E>(m: Runner<S, P, R, C, E>, a: State<S, P, C>, b: State<S, P, C>, call: Call<P>)
    requires Alike(m.retention, a, b, call.now) && IsReplay(m, a, call)
    ensures Alike(m.retention, Run(m, a, call).0, b, call.now)
  {
    PrunedTwice(m.retention, a.receipts, call.now, call.now);
  }

  /** Erasing calls that would be answered from a receipt leaves the same database and the same answers to the rest. */
  lemma {:induction false} ReplaysAreInvisible<S, P, R, C, E>(
    m: Runner<S, P, R, C, E>, a: State<S, P, C>, b: State<S, P, C>, calls: seq<Call<P>>, erased: seq<bool>, start: int)
    requires |calls| == |erased| && Timely(calls, start) && OnlyReplays(m, a, calls, erased)
    requires Alike(m.retention, a, b, start)
    ensures var (full, answers) := RunAll(m, a, calls);
            var (short, kept) := RunAll(m, b, Keep(calls, erased));
            full.db == short.db && kept == Keep(answers, erased)
    decreases |calls|
  {
    hide Run, Alike, IsReplay;
    if calls == [] {
      AlikeDb(m.retention, a, b, start);
    } else {
      var call := calls[0];
      AlikeLater(m.retention, a, b, start, call.now);
      var a1 := Run(m, a, call).0;
      var answers := RunAll(m, a, calls).1;
      assert answers[1..] == RunAll(m, a1, calls[1..]).1;
      assert Timely(calls[1..], call.now);
      if erased[0] {
        ReplayIsInvisible(m, a, b, call);
        ReplaysAreInvisible(m, a1, b, calls[1..], erased[1..], call.now);
        assert Keep(calls, erased) == Keep(calls[1..], erased[1..]);
        assert Keep(answers, erased) == Keep(answers[1..], erased[1..]);
      } else {
        AlikeRun(m, a, b, call);
        ReplaysAreInvisible(m, a1, Run(m, b, call).0, calls[1..], erased[1..], call.now);
        assert Keep(calls, erased)[0] == call && Keep(calls, erased)[1..] == Keep(calls[1..], erased[1..]);
      }
    }
  }

  lemma AlikeDb<S, P, C>(retention: Option<nat>, a: State<S, P, C>, b: State<S, P, C>, now: int)
    requires Alike(retention, a, b, now)
    ensures a.db == b.db
  {
  }

  // -------------------------------------------------------------------- what counts as a repetition

  /** One receipt per key: a call under a known key never adds another. */
  ghost predicate UniqueKeys<P(!new), C(!new)>(receipts: seq<Receipt<P, C>>) {
    forall x, y :: x in receipts && y in receipts && x.key == y.key ==> x == y
  }

  lemma PrunedMembers<P(!new), C(!new)>(retention: Option<nat>, receipts: seq<Receipt<P, C>>, now: int)
    ensures forall x :: x in Pruned(retention, receipts, now) <==>
              x in receipts && (retention.Some? ==> x.createdAt >= now - retention.value)
  {
    if retention.Some? {
      var cutoff := now - retention.value;
      PruneMembers(receipts, cutoff);
      assert Pruned(retention, receipts, now) == Prune(receipts, cutoff);
    }
  }

  lemma RunKeepsUnique<S, P(!new), R, C(!new), E>(m: Runner<S, P, R, C, E>, s: State<S, P, C>, call: Call<P>)
    requires UniqueKeys(s.receipts)
    ensures UniqueKeys(Run(m, s, call).0.receipts)
  {
    PrunedMembers(m.retention, s.receipts, call.now);
    hide Pruned, Prune;
  }

  /** A receipt survives every call made while it is within its lifetime. */
  lemma ReceiptStays<S, P(!new), R, C(!new), E>(m: Runner<S, P, R, C, E>, s: State<S, P, C>, call: Call<P>, x: Receipt<P, C>)
    requires x in s.receipts && (m.retention.Some? ==> x.createdAt >= call.now - m.retention.value)
    ensures x in Run(m, s, call).0.receipts
  {
    PrunedMembers(m.retention, s.receipts, call.now);
    hide Pruned, Prune, Find;
  }

  lemma {:induction false} ReceiptStaysThroughout<S, P(!new), R, C(!new), E>(
    m: Runner<S, P, R, C, E>, s: State<S, P, C>, calls: seq<Call<P>>, x: Receipt<P, C>)
    requires x in s.receipts && UniqueKeys(s.receipts)
    requires m.retention.Some? ==> forall i :: 0 <= i < |calls| ==> x.createdAt >= calls[i].now - m.retention.value
    ensures x in RunAll(m, s, calls).0.receipts && UniqueKeys(RunAll(m, s, calls).0.receipts)
    decreases |calls|
  {
    hide Run, UniqueKeys;
    if calls != [] {
      ReceiptStays(m, s, calls[0], x);
      RunKeepsUnique(m, s, calls[0]);
      ReceiptStaysThroughout(m, Run(m, s, calls[0]).0, calls[1..], x);
    }
  }

  lemma ExecutionLeavesReceipt<S, P(!new), R, C(!new), E>(m: Runner<S, P, R, C, E>, s: State<S, P, C>, call: Call<P>)
    requires Executes(m, s, call) && UniqueKeys(s.receipts)
    ensures var (r, answer) := Run(m, s, call);
            answer.Answered? && UniqueKeys(r.receipts)
            && Receipt(call.key, call.payload, m.encode(answer.response), call.now) in r.receipts
  {
    RunKeepsUnique(m, s, call);
  }

  /**
   A call that repeats an executed one (same kind, user, key and payload) within the retention window, with any
   calls in between, is a replay and gets the first call's response as the codec stored it.
   */
  lemma RepetitionIsReplay<S, P(!new), R, C(!new), E>(
    m: Runner<S, P, R, C, E>, s: State<S, P, C>, first: Call<P>, between: seq<Call<P>>, again: Call<P>)
    requires UniqueKeys(s.receipts) && Executes(m, s, first)
    requires again.key == first.key && again.payload == first.payload
    requires Timely(between, first.now) && forall i :: 0 <= i < |between| ==> between[i].now <= again.now
    requires m.retention.Some? ==> again.now - first.now <= m.retention.value
    ensures var (s1, answer) := Run(m, s, first);
            var s2 := RunAll(m, s1, between).0;
            IsReplay(m, s2, again) && answer.Answered?
            && Run(m, s2, again).1 == Answered(m.decode(m.encode(answer.response)))
  {
    hide Run, RunAll, UniqueKeys, Timely;
    var (s1, answer) := Run(m, s, first);
    ExecutionLeavesReceipt(m, s, first);
    var x := Receipt(first.key, first.payload, m.encode(answer.response), first.now);
    ReceiptStaysThroughout(m, s1, between, x);
    FoundReceiptAnswers(m, RunAll(m, s1, between).0, again, x);
  }

  /** Within seven days the repetition of a successful call gets the very same response. */
  lemma SameAnswerForSevenDays<S, P(!new), R(!new), E>(
    mutate: (S, Key, P, int) -> (S, Result<R, E>), s: State<S, P, R>, first: Call<P>, between: seq<Call<P>>, again: Call<P>)
    requires UniqueKeys(s.receipts) && Executes(MutationRunner(mutate), s, first)
    requires again.key == first.key && again.payload == first.payload && again.now - first.now <= 7 * 24 * 60 * 60 * 1000
    requires Timely(between, first.now) && forall i :: 0 <= i < |between| ==> between[i].now <= again.now
    ensures var m := MutationRunner(mutate);
            Run(m, RunAll(m, Run(m, s, first).0, between).0, again) == (
              State(RunAll(m, Run(m, s, first).0, between).0.db,
                    Pruned(m.retention, RunAll(m, Run(m, s, first).0, between).0.receipts, again.now)),
              Run(m, s, first).1)
  {
    hide Executes, UniqueKeys, Timely, RunAll, Pruned;
    RepetitionIsReplay(MutationRunner(mutate), s, first, between, again);
  }

  /** The other runner never forgets: whenever a successful call is repeated, the decoded record of its response answers. */
  lemma SameAnswerForever<S, P(!new), R, C(!new), E>(
    encode: R -> C, decode: C -> R, mutate: (S, Key, P, int) -> (S, Result<R, E>),
    s: State<S, P, C>, first: Call<P>, between: seq<Call<P>>, again: Call<P>)
    requires UniqueKeys(s.receipts) && Executes(RecordRunner(encode, decode, mutate), s, first)
    requires again.key == first.key && again.payload == first.payload
    requires Timely(between, first.now) && forall i :: 0 <= i < |between| ==> between[i].now <= again.now
    requires var answer := Run(RecordRunner(encode, decode, mutate), s, first).1;
             answer.Answered? ==> decode(encode(answer.response)) == answer.response
    ensures var m := RecordRunner(encode, decode, mutate);
            var s2 := RunAll(m, Run(m, s, first).0, between).0;
            Run(m, s2, again) == (s2, Run(m, s, first).1)
  {
    var m := RecordRunner(encode, decode, mutate);
    RepetitionIsReplay(m, s, first, between, again);
    hide Executes, UniqueKeys, Timely, RunAll, Find;
  }

  lemma FoundReceiptAnswers<S, P(!new), R, C(!new), E>(m: Runner<S, P, R, C, E>, s: State<S, P, C>, call: Call<P>, x: Receipt<P, C>)
    requires UniqueKeys(s.receipts) && x in s.receipts && x.key == call.key && x.payload == call.payload && Keyed(m, call)
    requires m.retention.Some? ==> x.createdAt >= call.now - m.retention.value
    ensures IsReplay(m, s, call) && Run(m, s, call).1 == Answered(m.decode(x.stored))
  {
    PrunedMembers(m.retention, s.receipts, call.now);
    hide Pruned, Prune;
  }

  // ------------------------------------------------------------------- retries, told from the calls

  /** The second call comes while a receipt of the first would still be kept. */
  predicate Within<S, P, R, C, E>(m: Runner<S, P, R, C, E>, a: Call<P>, b: Call<P>) {
    m.retention.Some? ==> b.now - a.now <= m.retention.value
  }

  /**
   The call was carried out, and its success is what retries are answered with: it carried a key and succeeded, and no
   call carried out under the same key came before it within the retention.
   */
  ghost predicate CarriedOut<S, P, R, C, E>(m: Runner<S, P, R, C, E>, calls: seq<Call<P>>, answers: seq<Answer<R, E>>, k: nat)
    requires k < |calls| == |answers|
  {
    && Keyed(m, calls[k]) && answers[k].Answered?
    && forall j: nat :: j < k && calls[j].key == calls[k].key && Within(m, calls[j], calls[k]) ==> !CarriedOut(m, calls, answers, j)
  }

  /** A retry: a call under the same key and with the same payload was carried out before it, within the retention. */
  ghost predicate Retries<S, P, R, C, E>(m: Runner<S, P, R, C, E>, calls: seq<Call<P>>, answers: seq<Answer<R, E>>, k: nat)
    requires k < |calls| == |answers|
  {
    Keyed(m, calls[k])
    && exists j: nat :: j < k && CarriedOut(m, calls, answers, j) && calls[j].key == calls[k].key
                        && calls[j].payload == calls[k].payload && Within(m, calls[j], calls[k])
  }

  /** The state in which the `n`th call is made. */
  function StateAt<S, P(==), R, C, E>(m: Runner<S, P, R, C, E>, s: State<S, P, C>, calls: seq<Call<P>>, n: nat): State<S, P, C>
    requires n <= |calls|
  {
    if n == 0 then s else Run(m, StateAt(m, s, calls, n - 1), calls[n - 1]).0
  }

  lemma {:induction false} StateShift<S, P, R, C, E>(m: Runner<S, P, R, C, E>, s: State<S, P, C>, calls: seq<Call<P>>, n: nat)
    requires n < |calls|
    ensures StateAt(m, s, calls, n + 1) == StateAt(m, Run(m, s, calls[0]).0, calls[1..], n)
  {
    hide Run;
    if n > 0 {
      StateShift(m, s, calls, n - 1);
      assert calls[1..][n - 1] == calls[n];
    } else {
      assert StateAt(m, s, calls, 0) == s;
    }
  }

  lemma {:induction false} AnswerAt<S, P, R, C, E>(m: Runner<S, P, R, C, E>, s: State<S, P, C>, calls: seq<Call<P>>, k: nat)
    requires k < |calls|
    ensures RunAll(m, s, calls).1[k] == Run(m, StateAt(m, s, calls, k), calls[k]).1
    decreases k
  {
    hide Run;
    if k > 0 {
      AnswerAt(m, Run(m, s, calls[0]).0, calls[1..], k - 1);
      StateShift(m, s, calls, k - 1);
      assert calls[1..][k - 1] == calls[k];
    }
  }

  lemma {:induction false} ReplaysByState<S, P, R, C, E>(
    m: Runner<S, P, R, C, E>, s: State<S, P, C>, calls: seq<Call<P>>, erased: seq<bool>)
    requires |calls| == |erased|
    requires forall k: nat :: k < |calls| && erased[k] ==> IsReplay(m, StateAt(m, s, calls, k), calls[k])
    ensures OnlyReplays(m, s, calls, erased)
    decreases |calls|
  {
    hide Run, IsReplay;
    if calls != [] {
      assert StateAt(m, s, calls, 0) == s;
      var s1 := Run(m, s, calls[0]).0;
      forall k: nat | k < |calls[1..]| && erased[1..][k] ensures IsReplay(m, StateAt(m, s1, calls[1..], k), calls[1..][k]) {
        StateShift(m, s, calls, k);
        assert erased[k + 1] && calls[1..][k] == calls[k + 1];
      }
      ReplaysByState(m, s1, calls[1..], erased[1..]);
    }
  }

  ghost predicate Records<P, C>(x: Receipt<P, C>, call: Call<P>) {
    x.key == call.key && x.payload == call.payload && x.createdAt == call.now
  }

  /** The receipts are those of the calls carried out so far, as far as they are not due for pruning. */
  ghost predicate ReceiptsTell<S, P(!new), R, C(!new), E>(
    m: Runner<S, P, R, C, E>, calls: seq<Call<P>>, answers: seq<Answer<R, E>>, receipts: seq<Receipt<P, C>>, n: nat, t: int)
    requires n <= |calls| == |answers|
  {
    && UniqueKeys(receipts)
    && (forall x :: x in receipts ==> exists j: nat :: j < n && CarriedOut(m, calls, answers, j) && Records(x, calls[j]))
    && (forall j: nat :: j < n && CarriedOut(m, calls, answers, j) && (m.retention.Some? ==> t - calls[j].now <= m.retention.value) ==>
          exists x :: x in receipts && Records(x, calls[j]))
  }

  lemma FoundMeansCarriedOut<S, P(!new), R, C(!new), E>(
    m: Runner<S, P, R, C, E>, calls: seq<Call<P>>, answers: seq<Answer<R, E>>, receipts: seq<Receipt<P, C>>, n: nat)
    requires n < |calls| == |answers| && ReceiptsTell(m, calls, answers, receipts, n, calls[n].now)
    ensures var existing := Find(Pruned(m.retention, receipts, calls[n].now), calls[n].key);
            && (existing.Some? <==> exists j: nat :: j < n && CarriedOut(m, calls, answers, j) && calls[j].key == calls[n].key
                                                     && Within(m, calls[j], calls[n]))
            && (forall j: nat :: j < n && CarriedOut(m, calls, answers, j) && calls[j].key == calls[n].key && Within(m, calls[j], calls[n]) ==>
                  existing.Some? && existing.value.payload == calls[j].payload)
  {
    PrunedMembers(m.retention, receipts, calls[n].now);
    hide Pruned, CarriedOut;
    var pruned := Pruned(m.retention, receipts, calls[n].now);
    var existing := Find(pruned, calls[n].key);
    forall j: nat | j < n && CarriedOut(m, calls, answers, j) && calls[j].key == calls[n].key && Within(m, calls[j], calls[n])
      ensures existing.Some? && existing.value.payload == calls[j].payload
    {
      var x :| x in receipts && Records(x, calls[j]);
      assert x in pruned;
    }
  }

  /** A call that is not carried out leaves the receipts that are not due. */
  lemma OtherCallTells<S, P(!new), R, C(!new), E>(
    m: Runner<S, P, R, C, E>, calls: seq<Call<P>>, answers: seq<Answer<R, E>>, before: seq<Receipt<P, C>>, n: nat)
    requires n < |calls| == |answers| && ReceiptsTell(m, calls, answers, before, n, calls[n].now)
    requires !CarriedOut(m, calls, answers, n)
    ensures ReceiptsTell(m, calls, answers, before, n + 1, calls[n].now)
    ensures ReceiptsTell(m, calls, answers, Pruned(m.retention, before, calls[n].now), n + 1, calls[n].now)
  {
    PrunedMembers(m.retention, before, calls[n].now);
    hide Pruned, CarriedOut;
    var after := Pruned(m.retention, before, calls[n].now);
    forall j: nat | j < n + 1 && CarriedOut(m, calls, answers, j) && (m.retention.Some? ==> calls[n].now - calls[j].now <= m.retention.value)
      ensures exists x :: x in before && x in after && Records(x, calls[j])
    {
      var x :| x in before && Records(x, calls[j]);
      assert x in after;
    }
  }

  /** A call that is carried out adds its own. */
  lemma NewCallTells<S, P(!new), R, C(!new), E>(
    m: Runner<S, P, R, C, E>, calls: seq<Call<P>>, answers: seq<Answer<R, E>>, before: seq<Receipt<P, C>>, x: Receipt<P, C>, n: nat)
    requires n < |calls| == |answers| && ReceiptsTell(m, calls, answers, before, n, calls[n].now)
    requires CarriedOut(m, calls, answers, n) && Records(x, calls[n])
    requires UniqueKeys(Pruned(m.retention, before, calls[n].now) + [x])
    ensures ReceiptsTell(m, calls, answers, Pruned(m.retention, before, calls[n].now) + [x], n + 1, calls[n].now)
  {
    PrunedMembers(m.retention, before, calls[n].now);
    hide Pruned, CarriedOut, UniqueKeys;
    var after := Pruned(m.retention, before, calls[n].now) + [x];
    forall j: nat | j < n + 1 && CarriedOut(m, calls, answers, j) && (m.retention.Some? ==> calls[n].now - calls[j].now <= m.retention.value)
      ensures exists y :: y in after && Records(y, calls[j])
    {
      if j == n {
        assert x in after;
      } else {
        var y :| y in before && Records(y, calls[j]);
        assert y in after;
      }
    }
  }

  lemma CallTells<S, P(!new), R, C(!new), E>(
    m: Runner<S, P, R, C, E>, s: State<S, P, C>, calls: seq<Call<P>>, answers: seq<Answer<R, E>>, n: nat)
    requires n < |calls| == |answers| && answers[n] == Run(m, s, calls[n]).1
    requires ReceiptsTell(m, calls, answers, s.receipts, n, calls[n].now)
    ensures ReceiptsTell(m, calls, answers, Run(m, s, calls[n]).0.receipts, n + 1, calls[n].now)
  {
    FoundMeansCarriedOut(m, calls, answers, s.receipts, n);
    UniqueStays(m, s, calls, answers, n);
    hide ReceiptsTell, UniqueKeys, Pruned;
    if Executes(m, s, calls[n]) {
      var response := m.mutate(s.db, calls[n].key, calls[n].payload, calls[n].now).1.value;
      NewCallTells(m, calls, answers, s.receipts, Receipt(calls[n].key, calls[n].payload, m.encode(response), calls[n].now), n);
    } else {
      OtherCallTells(m, calls, answers, s.receipts, n);
    }
  }

  lemma UniqueStays<S, P(!new), R, C(!new), E>(
    m: Runner<S, P, R, C, E>, s: State<S, P, C>, calls: seq<Call<P>>, answers: seq<Answer<R, E>>, n: nat)
    requires n < |calls| == |answers| && ReceiptsTell(m, calls, answers, s.receipts, n, calls[n].now)
    ensures UniqueKeys(Run(m, s, calls[n]).0.receipts)
  {
    RunKeepsUnique(m, s, calls[n]);
  }

  lemma {:induction false} RunTells<S, P(!new), R, C(!new), E>(
    m: Runner<S, P, R, C, E>, db: S, calls: seq<Call<P>>, n: nat, start: int)
    requires n < |calls| && Timely(calls, start)
    ensures ReceiptsTell(m, calls, RunAll(m, State(db, []), calls).1, StateAt(m, State(db, []), calls, n).receipts, n, calls[n].now)
  {
    var s: State<S, P, C> := State(db, []);
    var answers := RunAll(m, s, calls).1;
    if n > 0 {
      RunTells(m, db, calls, n - 1, start);
      AnswerAt(m, s, calls, n - 1);
      CallTells(m, StateAt(m, s, calls, n - 1), calls, answers, n - 1);
      hide CarriedOut, Run, RunAll;
    }
  }

  /** The runner answers from a receipt exactly the retries. */
  lemma ReplayMeansRetry<S, P(!new), R, C(!new), E>(
    m: Runner<S, P, R, C, E>, db: S, calls: seq<Call<P>>, k: nat, start: int)
    requires k < |calls| && Timely(calls, start)
    ensures IsReplay(m, StateAt(m, State(db, []), calls, k), calls[k]) <==> Retries(m, calls, RunAll(m, State(db, []), calls).1, k)
  {
    RunTells(m, db, calls, k, start);
    var answers := RunAll(m, State(db, []), calls).1;
    FoundMeansCarriedOut(m, calls, answers, StateAt(m, State(db, []), calls, k).receipts, k);
    hide CarriedOut, RunAll, StateAt, Pruned, UniqueKeys, ReceiptsTell;
  }

  /**
   Retries are invisible: from the first call on, erasing calls that repeat the key and payload of a call carried out
   within the retention before them leaves the same database and the same answer for every call that is kept, although
   every call prunes and any others come in between.
   */
  lemma RetriesAreInvisible<S, P(!new), R, C(!new), E>(
    m: Runner<S, P, R, C, E>, db: S, calls: seq<Call<P>>, erased: seq<bool>, start: int)
    requires |calls| == |erased| && Timely(calls, start)
    requires forall k: nat :: k < |calls| && erased[k] ==> Retries(m, calls, RunAll(m, State(db, []), calls).1, k)
    ensures var (full, answers) := RunAll(m, State(db, []), calls);
            var (short, kept) := RunAll(m, State(db, []), Keep(calls, erased));
            full.db == short.db && kept == Keep(answers, erased)
  {
    var s: State<S, P, C> := State(db, []);
    forall k: nat | k < |calls| && erased[k] ensures IsReplay(m, StateAt(m, s, calls, k), calls[k]) {
      ReplayMeansRetry(m, db, calls, k, start);
    }
    hide Retries, IsReplay, RunAll, OnlyReplays;
    ReplaysByState(m, s, calls, erased);
    ReplaysAreInvisible(m, s, s, calls, erased, start);
  }

  /** Erased is every call that repeats the key and payload of a kept call that succeeded, within the retention after it. */
  ghost predicate ErasesRepetitions<S, P, R, C, E>(
    m: Runner<S, P, R, C, E>, calls: seq<Call<P>>, answers: seq<Answer<R, E>>, erased: seq<bool>)
    requires |calls| == |answers| == |erased|
  {
    forall k: nat :: k < |calls| ==>
      (erased[k] <==> Keyed(m, calls[k]) && exists j: nat :: j < k && RepeatsKept(m, calls, answers, erased, j, k))
  }

  ghost predicate RepeatsKept<S, P, R, C, E>(
    m: Runner<S, P, R, C, E>, calls: seq<Call<P>>, answers: seq<Answer<R, E>>, erased: seq<bool>, j: nat, k: nat)
    requires j < k < |calls| == |answers| == |erased|
  {
    !erased[j] && answers[j].Answered? && calls[j].key == calls[k].key && calls[j].payload == calls[k].payload
    && Within(m, calls[j], calls[k])
  }

  /** Under the key of a call carried out within the retention, only the same payload gets a response. */
  lemma AnswerTells<S, P(!new), R, C(!new), E>(
    m: Runner<S, P, R, C, E>, db: S, calls: seq<Call<P>>, j: nat, k: nat, start: int)
    requires j < k < |calls| && Timely(calls, start) && Keyed(m, calls[k])
    requires calls[j].key == calls[k].key && Within(m, calls[j], calls[k])
    ensures var answers := RunAll(m, State(db, []), calls).1;
            CarriedOut(m, calls, answers, j) && answers[k].Answered? ==> calls[j].payload == calls[k].payload
  {
    var s: State<S, P, C> := State(db, []);
    RunTells(m, db, calls, k, start);
    FoundMeansCarriedOut(m, calls, RunAll(m, s, calls).1, StateAt(m, s, calls, k).receipts, k);
    AnswerAt(m, s, calls, k);
    hide RunAll, StateAt, Pruned, ReceiptsTell, CarriedOut;
  }

  lemma {:induction false} KeptMeansCarriedOut<S, P(!new), R, C(!new), E>(
    m: Runner<S, P, R, C, E>, db: S, calls: seq<Call<P>>, erased: seq<bool>, k: nat, start: int)
    requires k < |calls| == |erased| && Timely(calls, start)
    requires ErasesRepetitions(m, calls, RunAll(m, State(db, []), calls).1, erased)
    ensures var answers := RunAll(m, State(db, []), calls).1;
            CarriedOut(m, calls, answers, k) <==> !erased[k] && Keyed(m, calls[k]) && answers[k].Answered?
    decreases k
  {
    var answers := RunAll(m, State(db, []), calls).1;
    hide RunAll;
    forall j: nat | j < k
      ensures CarriedOut(m, calls, answers, j) <==> !erased[j] && Keyed(m, calls[j]) && answers[j].Answered?
    {
      KeptMeansCarriedOut(m, db, calls, erased, j, start);
    }
    if erased[k] {
      var j: nat :| j < k && RepeatsKept(m, calls, answers, erased, j, k);
    } else if Keyed(m, calls[k]) && answers[k].Answered? {
      forall j: nat | j < k && calls[j].key == calls[k].key && Within(m, calls[j], calls[k])
        ensures !CarriedOut(m, calls, answers, j)
      {
        AnswerTells(m, db, calls, j, k, start);
        assert !RepeatsKept(m, calls, answers, erased, j, k);
      }
    }
  }

  /** The same in a client's terms: of each request that succeeds, all repetitions within the retention may be left out. */
  lemma RepetitionsAreInvisible<S, P(!new), R, C(!new), E>(
    m: Runner<S, P, R, C, E>, db: S, calls: seq<Call<P>>, erased: seq<bool>, start: int)
    requires |calls| == |erased| && Timely(calls, start)
    requires ErasesRepetitions(m, calls, RunAll(m, State(db, []), calls).1, erased)
    ensures var (full, answers) := RunAll(m, State(db, []), calls);
            var (short, kept) := RunAll(m, State(db, []), Keep(calls, erased));
            full.db == short.db && kept == Keep(answers, erased)
  {
    var answers := RunAll(m, State(db, []), calls).1;
    hide RunAll;
    forall k: nat | k < |calls| && erased[k] ensures Retries(m, calls, answers, k) {
      var j: nat :| j < k && RepeatsKept(m, calls, answers, erased, j, k);
      KeptMeansCarriedOut(m, db, calls, erased, j, start);
    }
    RetriesAreInvisible(m, db, calls, erased, start);
  }

  const DAY_MS := 24 * 60 * 60 * 1000

  const PATIENT := Key("kind", "user", "key")

  const PATIENT_CALLS := [Call(PATIENT, 0, 0), Call(PATIENT, 0, 5 * DAY_MS), Call(PATIENT, 0, 10 * DAY_MS)]

  function Counting(n: int, key: Key, payload: int, now: int): (int, Result<int, bool>) {
    (n + 1, Ok(n))
  }

  lemma RunAllCons<S, P, R, C, E>(m: Runner<S, P, R, C, E>, s: State<S, P, C>, call: Call<P>, rest: seq<Call<P>>)
    ensures RunAll(m, s, []) == (s, [])
    ensures var (s1, answer) := Run(m, s, call);
            RunAll(m, s, [call] + rest) == (RunAll(m, s1, rest).0, [answer] + RunAll(m, s1, rest).1)
  {
    hide Run;
    assert ([call] + rest)[1..] == rest;
  }

  lemma PatientSteps()
    ensures var m, x := MutationRunner(Counting), Receipt(PATIENT, 0, 0, 0);
            && Run(m, State(0, []), PATIENT_CALLS[0]) == (State(1, [x]), Answered(0))
            && Run(m, State(1, [x]), PATIENT_CALLS[1]) == (State(1, [x]), Answered(0))
            && Run(m, State(1, [x]), PATIENT_CALLS[2]).0.db == 2
            && Run(m, State(1, [x]), PATIENT_CALLS[2]).1 == Answered(1)
  {
    var x := Receipt(PATIENT, 0, 0, 0);
    assert Find([x], PATIENT) == Some(x);
    assert Prune([x], 5 * DAY_MS - RECEIPT_RETENTION_MS) == [x];
    assert Prune([x], 10 * DAY_MS - RECEIPT_RETENTION_MS) == [];
  }

  /**
   The retention runs from the call that was carried out, and an answer from its receipt does not renew it: the third
   of three equal calls comes five days after one that was answered, and is carried out again.
   */
  lemma RetentionIsNotRenewed()
    ensures RunAll(MutationRunner(Counting), State(0, []), PATIENT_CALLS).0.db == 2
    ensures RunAll(MutationRunner(Counting), State(0, []), PATIENT_CALLS).1 == [Answered(0), Answered(0), Answered(1)]
  {
    var m, x := MutationRunner(Counting), Receipt(PATIENT, 0, 0, 0);
    PatientSteps();
    hide Run, RunAll, MutationRunner;
    var c0, c1, c2 := PATIENT_CALLS[0], PATIENT_CALLS[1], PATIENT_CALLS[2];
    RunAllCons(m, State(1, [x]), c2, []);
    RunAllCons(m, Run(m, State(1, [x]), c2).0, c2, []);
    RunAllCons(m, State(1, [x]), c1, [c2] + []);
    RunAllCons(m, State(0, []), c0, [c1] + ([c2] + []));
    assert PATIENT_CALLS == [c0] + ([c1] + ([c2] + []));
  }

  // ---------------------------------------------------------------------------- the runner, in place

  class Backend<S, P(==), R, C, E> {
    var db: S
    var receipts: seq<Receipt<P, C>>
    const runner: Runner<S, P, R, C, E>

    constructor (db: S, runner: Runner<S, P, R, C, E>)
      ensures this.db == db && receipts == [] && this.runner == runner
    {
      this.db, receipts, this.runner := db, [], runner;
    }

    /** `idempotentMutation` with a retention, `executeIdempotent` without one. */
    method Execute(call: Call<P>) returns (answer: Answer<R, E>)
      modifies this
      ensures (State(db, receipts), answer) == Run(runner, old(State(db, receipts)), call)
    {
      if runner.bypass && call.key.key == "" {
        var (db1, r) := runner.mutate(db, call.key, call.payload, call.now);
        db := db1;
        return if r.Ok? then Answered(r.value) else Failed(r.error);
      }
      receipts := Pruned(runner.retention, receipts, call.now);
      var existing := Find(receipts, call.key);
      if existing.Some? {
        return if existing.value.payload == call.payload then Answered(runner.decode(existing.value.stored)) else Conflict;
      }
      var (db2, response) := runner.mutate(db, call.key, call.payload, call.now);
      db := db2;
      if response.Err? { return Failed(response.error); }
      receipts := receipts + [Receipt(call.key, call.payload, runner.encode(response.value), call.now)];
      return Answered(response.value);
    }
  }
}
