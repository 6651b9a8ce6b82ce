/**
 The serialized save queue (backend/persistence.js) and the save-then-answer order of requests
 (backend/http-handler.js), as a state machine over file-system steps that may fail and crashes that may strike
 between any two of them.  A success is answered once its save has resolved; an error is answered once its save has
 settled, whether or not the file has what the handler changed before it threw.  The in-memory database is the list
 of changes made to it; a snapshot is that list at the moment of a `saveDb` call, and a later one extends an earlier one.
 */
module SaveQueue {
  import opened Prelude

  type Change = nat
  type Snapshot = seq<Change>

  /** A path on disk: absent, whole, or left half-written by an interrupted or failed write. */
  datatype Disk = Missing | Torn | Whole(snapshot: Snapshot)

  datatype Phase = Idle | Chmod | Write | Rename

  datatype Outcome = Unsettled | Resolved | Rejected

  datatype Call = Call(snapshot: Snapshot, outcome: Outcome)

  datatype Answer = Unanswered | Success | Failure

  /**
   A request whose handler has returned or thrown: the database as of its last change, whether it is on its way to an
   error answer, the save it awaits, and what it was answered.
   */
  datatype Request = Request(effects: Snapshot, failed: bool, call: Option<nat>, answer: Answer)

  datatype State = State(
    loaded: Snapshot,          // the database the running process started from
    memory: Snapshot,          // and what it has become
    calls: seq<Call>,          // saveDb calls of the running process, in the order of the promise chain
    head: nat,                 // the first call whose job has not settled
    phase: Phase,              // where that job stands
    requests: seq<Request>,
    pending: Disk,             // `${dbPath}.pending`
    file: Disk,                // `dbPath`
    taken: set<Snapshot>,      // every snapshot any call of any process has taken
    promised: set<Snapshot>)   // what resolved saves and successful answers have promised, over all processes

  datatype Step =
    | Mutate(change: Change)
    | HandlerDone(ok: bool, changes: nat)
    | SaveFor(r: nat)
    | SaveAgain(r: nat)
    | SaveAlone
    | StartHead
    | ChmodDone(ok: bool)
    | WriteTears
    | WriteDone(ok: bool)
    | RenameDone(ok: bool)
    | AnswerSuccess(r: nat)
    | AnswerFailure(r: nat)
    | Crash

  /** The request waits for a save that has settled. */
  predicate Settled(s: State, r: nat) {
    r < |s.requests| && s.requests[r].answer.Unanswered? && s.requests[r].call.Some?
    && s.requests[r].call.value < |s.calls| && !s.calls[s.requests[r].call.value].outcome.Unsettled?
  }

  predicate SavedFor(s: State, r: nat) {
    Settled(s, r) && s.calls[s.requests[r].call.value].outcome.Resolved?
  }

  /**
   A handler that throws has its changes saved and its error answered like any other exception: the second save, of
   which a rejection is swallowed.  A handler that returned goes the same way when its own save rejects, or when
   writing its answer throws.
   */
  predicate Enabled(s: State, step: Step) {
    (s.phase.Idle? || s.head < |s.calls|)
    && match step
    case HandlerDone(_, changes) => changes <= |s.memory|
    case SaveFor(r) => r < |s.requests| && s.requests[r].call.None?
    case SaveAgain(r) => Settled(s, r) && !s.requests[r].failed
    case StartHead => s.phase.Idle? && s.head < |s.calls|
    case ChmodDone(_) => s.phase.Chmod?
    case WriteTears => s.phase.Write?
    case WriteDone(_) => s.phase.Write?
    case RenameDone(_) => s.phase.Rename?
    case AnswerSuccess(r) => SavedFor(s, r) && !s.requests[r].failed
    case AnswerFailure(r) => Settled(s, r) && s.requests[r].failed
    case _ => true
  }

  function Settle(s: State, outcome: Outcome): State
    requires s.head < |s.calls|
  {
    s.(calls := s.calls[s.head := s.calls[s.head].(outcome := outcome)], head := s.head + 1, phase := Idle)
  }

  /** A `saveDb` call: the snapshot is taken now, the job joins the end of the chain. */
  function TakeCall(s: State): State {
    s.(calls := s.calls + [Call(s.memory, Unsettled)], taken := s.taken + {s.memory})
  }

  /** A request calls `saveDb` and waits for it. */
  function Awaiting(s: State, r: nat, failed: bool): State
    requires r < |s.requests|
  {
    TakeCall(s).(requests := s.requests[r := s.requests[r].(failed := failed, call := Some(|s.calls|))])
  }

  /** The head job fails: its promise rejects, the chain goes on with the next job. */
  function Fail(s: State): State
    requires s.head < |s.calls|
  {
    Settle(s, Rejected)
  }

  function Next(s: State, step: Step): State
    requires Enabled(s, step)
  {
    match step
    case Mutate(c) => s.(memory := s.memory + [c])
    case HandlerDone(ok, changes) => s.(requests := s.requests + [Request(s.memory[..changes], !ok, None, Unanswered)])
    case SaveFor(r) => Awaiting(s, r, s.requests[r].failed)
    case SaveAgain(r) => Awaiting(s, r, true)
    case SaveAlone => TakeCall(s)
    case StartHead => s.(phase := Chmod)
    case ChmodDone(ok) => if ok then s.(phase := Write) else Fail(s)
    case WriteTears => s.(pending := Torn)
    case WriteDone(ok) => if ok then s.(pending := Whole(s.calls[s.head].snapshot), phase := Rename) else Fail(s.(pending := Torn))
    case RenameDone(ok) =>
      if ok then Settle(s, Resolved).(file := s.pending, pending := Missing, promised := s.promised + {s.calls[s.head].snapshot})
      else Fail(s)
    case AnswerSuccess(r) =>
      s.(requests := s.requests[r := s.requests[r].(answer := Success)], promised := s.promised + {s.requests[r].effects})
    case AnswerFailure(r) => s.(requests := s.requests[r := s.requests[r].(answer := Failure)])
    case Crash => Restart(s)
  }

  /** What a process that starts now would find: the file, or the seed if there is none. */
  function Kept(s: State): Snapshot { if s.file.Whole? then s.file.snapshot else [] }

  /** A new process: only the disk survives. */
  function Restart(s: State): State {
    State(Kept(s), Kept(s), [], 0, Idle, [], s.pending, s.file, s.taken, s.promised)
  }

  // ------------------------------------------------------------------------------------- invariant

  ghost predicate CallsGrow(s: State) {
    && (forall i, j :: 0 <= i <= j < |s.calls| ==> s.calls[i].snapshot <= s.calls[j].snapshot)
    && (forall i :: 0 <= i < |s.calls| ==> s.calls[i].snapshot <= s.memory && s.calls[i].snapshot in s.taken)
  }

  ghost predicate QueueOk(s: State) {
    && s.head <= |s.calls|
    && (!s.phase.Idle? ==> s.head < |s.calls|)
    && (s.phase.Rename? ==> s.pending == Whole(s.calls[s.head].snapshot))
    && (forall i :: 0 <= i < |s.calls| ==> (s.calls[i].outcome.Unsettled? <==> i >= s.head))
  }

  /** The file is whole or absent, was taken by some call, and is behind every job still to run. */
  ghost predicate FileOk(s: State) {
    && !s.file.Torn?
    && (s.file.Whole? ==> s.file.snapshot in s.taken && s.file.snapshot <= s.memory)
    && (s.file.Whole? ==> forall i :: s.head <= i < |s.calls| ==> s.file.snapshot <= s.calls[i].snapshot)
  }

  ghost predicate RequestsOk(s: State) {
    forall r :: 0 <= r < |s.requests| ==>
      s.requests[r].effects <= s.memory
      && (s.requests[r].call.Some? ==>
            s.requests[r].call.value < |s.calls| && s.requests[r].effects <= s.calls[s.requests[r].call.value].snapshot)
  }

  /** Everything promised is in the file. */
  ghost predicate Durable(s: State) {
    && (forall i :: 0 <= i < |s.calls| && s.calls[i].outcome.Resolved? ==> s.calls[i].snapshot in s.promised)
    && (forall r :: 0 <= r < |s.requests| && s.requests[r].answer.Success? ==> s.requests[r].effects in s.promised)
    && (forall p :: p in s.promised ==> s.file.Whole? && p <= s.file.snapshot)
  }

  ghost predicate Wrote(s: State, i: nat) {
    i < |s.calls| && s.calls[i].outcome.Resolved? && Kept(s) == s.calls[i].snapshot
  }

  /** The file is what the process started from, or what a resolved save of its own has written. */
  ghost predicate FileFrom(s: State) {
    s.loaded <= Kept(s) && (Kept(s) == s.loaded || exists i: nat :: Wrote(s, i))
  }

  ghost predicate QueueInv(s: State) {
    CallsGrow(s) && QueueOk(s) && FileOk(s) && RequestsOk(s) && Durable(s)
  }

  ghost predicate Inv(s: State) {
    QueueInv(s) && FileFrom(s)
  }

  lemma PrefixTransitive(a: Snapshot, b: Snapshot, c: Snapshot)
    requires a <= b && b <= c
    ensures a <= c
  {
  }

  lemma TakeKeeps(s: State)
    requires QueueInv(s)
    ensures QueueInv(TakeCall(s))
  {
  }

  lemma MutateKeeps(s: State, c: Change)
    requires QueueInv(s)
    ensures QueueInv(Next(s, Mutate(c)))
  {
  }

  lemma RejectKeeps(s: State, pending: Disk)
    requires QueueInv(s) && s.head < |s.calls|
    ensures QueueInv(Fail(s.(pending := pending)))
  {
  }

  lemma RenameKeeps(s: State)
    requires QueueInv(s) && s.phase.Rename?
    ensures QueueInv(Next(s, RenameDone(true)))
  {
    var r := Next(s, RenameDone(true));
    forall p | p in r.promised ensures p <= r.file.snapshot {
      if p in s.promised { PrefixTransitive(p, s.file.snapshot, s.calls[s.head].snapshot); }
    }
  }

  lemma AnswerKeeps(s: State, r: nat)
    requires QueueInv(s) && Enabled(s, AnswerSuccess(r))
    ensures QueueInv(Next(s, AnswerSuccess(r)))
  {
    var call := s.calls[s.requests[r].call.value];
    assert call.snapshot in s.promised;
    PrefixTransitive(s.requests[r].effects, call.snapshot, s.file.snapshot);
  }

  lemma CrashKeeps(s: State)
    requires QueueInv(s)
    ensures QueueInv(Restart(s))
  {
  }

  lemma AwaitingKeeps(s: State, r: nat, failed: bool)
    requires QueueInv(s) && r < |s.requests|
    ensures QueueInv(Awaiting(s, r, failed))
  {
    TakeKeeps(s);
    var t := TakeCall(s);
    assert t.requests[r].effects <= s.memory == t.calls[|s.calls|].snapshot;
    hide TakeCall;
    assert CallsGrow(Awaiting(s, r, failed)) && QueueOk(Awaiting(s, r, failed)) && FileOk(Awaiting(s, r, failed));
    hide CallsGrow, QueueOk, FileOk;
  }

  lemma QuietKeeps(s: State, step: Step)
    requires QueueInv(s) && Enabled(s, step)
    requires step.HandlerDone? || step.AnswerFailure? || step.StartHead? || step.WriteTears? || (step.ChmodDone? && step.ok) || (step.WriteDone? && step.ok)
    ensures QueueInv(Next(s, step))
  {
  }

  lemma StepKeepsQueue(s: State, step: Step)
    requires QueueInv(s) && Enabled(s, step)
    ensures QueueInv(Next(s, step))
  {
    hide QueueInv, Settle, TakeCall, Restart;
    match step
    case Mutate(c) => MutateKeeps(s, c);
    case SaveFor(r) => AwaitingKeeps(s, r, s.requests[r].failed);
    case SaveAgain(r) => AwaitingKeeps(s, r, true);
    case SaveAlone => TakeKeeps(s);
    case ChmodDone(ok) => if ok { QuietKeeps(s, step); } else { RejectKeeps(s, s.pending); }
    case WriteDone(ok) => if ok { QuietKeeps(s, step); } else { RejectKeeps(s, Torn); }
    case RenameDone(ok) => if ok { RenameKeeps(s); } else { RejectKeeps(s, s.pending); }
    case AnswerSuccess(r) => AnswerKeeps(s, r);
    case Crash => CrashKeeps(s);
    case _ => QuietKeeps(s, step);
  }

  lemma SameFileFrom(s: State, r: State)
    requires FileFrom(s) && r.file == s.file && r.loaded == s.loaded
    requires forall i :: 0 <= i < |s.calls| && s.calls[i].outcome.Resolved? ==> i < |r.calls| && r.calls[i] == s.calls[i]
    ensures FileFrom(r)
  {
    if Kept(s) != s.loaded {
      var i: nat :| Wrote(s, i);
      assert Wrote(r, i);
    }
  }

  lemma RenameWrites(s: State)
    requires Inv(s) && s.phase.Rename?
    ensures FileFrom(Next(s, RenameDone(true)))
  {
    var r := Next(s, RenameDone(true));
    assert Wrote(r, s.head);
    if s.file.Whole? {
      PrefixTransitive(s.loaded, s.file.snapshot, r.file.snapshot);
    }
  }

  lemma StepKeepsFile(s: State, step: Step)
    requires Inv(s) && Enabled(s, step)
    ensures FileFrom(Next(s, step))
  {
    if step.Crash? {
    } else if step.RenameDone? && step.ok {
      RenameWrites(s);
    } else {
      hide CallsGrow, FileOk, RequestsOk, Durable, FileFrom;
      SameFileFrom(s, Next(s, step));
    }
  }

  lemma StepKeeps(s: State, step: Step)
    requires Inv(s) && Enabled(s, step)
    ensures Inv(Next(s, step))
  {
    StepKeepsQueue(s, step);
    StepKeepsFile(s, step);
    hide QueueInv, FileFrom, Next, Enabled;
  }

  // ------------------------------------------------------------------------------------ whole runs

  const START := State([], [], [], 0, Idle, [], Missing, Missing, {}, {})

  /** A server that has just started is such a state: what is required of the start of a run can be met. */
  lemma StartOk()
    ensures Inv(START)
  {
  }

  /** The file only ever moves to a snapshot that extends it; no promise is withdrawn. */
  ghost predicate Forward(a: State, b: State) {
    && (a.file.Whole? ==> b.file.Whole? && a.file.snapshot <= b.file.snapshot)
    && a.taken <= b.taken && a.promised <= b.promised
  }

  lemma StepForward(s: State, step: Step)
    requires Inv(s) && Enabled(s, step)
    ensures Forward(s, Next(s, step))
  {
  }

  /** A schedule of save calls, file-system outcomes, answers and crashes, with the states it goes through. */
  ghost predicate IsRun(states: seq<State>, steps: seq<Step>) {
    && |states| == |steps| + 1
    && forall k :: 0 <= k < |steps| ==> Enabled(states[k], steps[k]) && states[k + 1] == Next(states[k], steps[k])
  }

  lemma {:induction false} EveryStateOk(states: seq<State>, steps: seq<Step>, n: nat)
    requires IsRun(states, steps) && Inv(states[0]) && n < |states|
    ensures Inv(states[n])
  {
    hide Inv, Next, Enabled;
    if n > 0 {
      EveryStateOk(states, steps, n - 1);
      assert states[n - 1 + 1] == Next(states[n - 1], steps[n - 1]);
      StepKeeps(states[n - 1], steps[n - 1]);
    }
  }

  /**
   Under any schedule the database file is one complete snapshot some call took, or absent before the first save;
   never torn, and never older than it was.
   */
  lemma {:induction false} FileNeverTornOrOlder(states: seq<State>, steps: seq<Step>, n: nat, m: nat)
    requires IsRun(states, steps) && Inv(states[0]) && n <= m < |states|
    ensures !states[m].file.Torn? && (states[m].file.Whole? ==> states[m].file.snapshot in states[m].taken)
    ensures Forward(states[n], states[m])
  {
    hide Next, Enabled, CallsGrow, QueueOk, FileFrom, RequestsOk, Durable;
    EveryStateOk(states, steps, m);
    if n < m {
      FileNeverTornOrOlder(states, steps, n, m - 1);
      EveryStateOk(states, steps, m - 1);
      assert states[m - 1 + 1] == Next(states[m - 1], steps[m - 1]);
      StepForward(states[m - 1], steps[m - 1]);
    }
  }

  /** From the moment a save resolves, the file holds its snapshot or a later one, whatever fails or crashes afterwards. */
  lemma ResolvedSavesAreDurable(states: seq<State>, steps: seq<Step>, n: nat, m: nat, call: nat)
    requires IsRun(states, steps) && Inv(states[0]) && n <= m < |states|
    requires call < |states[n].calls| && states[n].calls[call].outcome.Resolved?
    ensures states[m].file.Whole? && states[n].calls[call].snapshot <= states[m].file.snapshot
  {
    EveryStateOk(states, steps, n);
    EveryStateOk(states, steps, m);
    FileNeverTornOrOlder(states, steps, n, m);
    hide IsRun, CallsGrow, QueueOk, RequestsOk, FileOk, FileFrom;
    assert states[n].calls[call].snapshot in states[m].promised;
  }

  /** What a client has been told succeeded is in the file from then on. */
  lemma SuccessfulAnswersAreDurable(states: seq<State>, steps: seq<Step>, n: nat, m: nat, r: nat)
    requires IsRun(states, steps) && Inv(states[0]) && n <= m < |states|
    requires r < |states[n].requests| && states[n].requests[r].answer.Success?
    ensures states[m].file.Whole? && states[n].requests[r].effects <= states[m].file.snapshot
  {
    EveryStateOk(states, steps, n);
    EveryStateOk(states, steps, m);
    FileNeverTornOrOlder(states, steps, n, m);
    hide IsRun, CallsGrow, QueueOk, RequestsOk, FileOk, FileFrom;
    assert states[n].requests[r].effects in states[m].promised;
  }

  // ------------------------------------------------------------------------------------- saves that go well

  ghost predicate Leads(a: State, step: Step, b: State) { Enabled(a, step) && b == Next(a, step) }

  /**
   The job at the head of the queue can always be brought to its end: if the file system does not fail, four steps later
   the file holds its snapshot, its promise is resolved, and the next job is at the head.
   */
  lemma HeadCanResolve(s: State) returns (a: State, b: State, c: State, d: State)
    requires Inv(s) && s.phase.Idle? && s.head < |s.calls|
    ensures Leads(s, StartHead, a) && Leads(a, ChmodDone(true), b) && Leads(b, WriteDone(true), c) && Leads(c, RenameDone(true), d)
    ensures d == s.(
              calls := s.calls[s.head := Call(s.calls[s.head].snapshot, Resolved)], head := s.head + 1,
              pending := Missing, file := Whole(s.calls[s.head].snapshot), promised := s.promised + {s.calls[s.head].snapshot})
  {
    hide Inv;
    a := s.(phase := Chmod);
    b := s.(phase := Write);
    c := s.(phase := Rename, pending := Whole(s.calls[s.head].snapshot));
    d := s.(calls := s.calls[s.head := Call(s.calls[s.head].snapshot, Resolved)], head := s.head + 1,
            pending := Missing, file := Whole(s.calls[s.head].snapshot), promised := s.promised + {s.calls[s.head].snapshot});
  }

  /** A request whose handler returned can be answered with success exactly from when the save it awaits has resolved. */
  lemma SuccessIffSaved(s: State, r: nat)
    requires Inv(s) && r < |s.requests| && s.requests[r].call.Some? && s.requests[r].answer.Unanswered? && !s.requests[r].failed
    ensures Enabled(s, AnswerSuccess(r)) <==> s.calls[s.requests[r].call.value].outcome == Resolved
    ensures Enabled(s, AnswerSuccess(r)) ==> Next(s, AnswerSuccess(r)).requests == s.requests[r := s.requests[r].(answer := Success)]
  {
  }

  // ---------------------------------------------------------------------- answers that outlive a crash

  /** A save called after the request's last change has resolved. */
  ghost predicate SavedSince(s: State, r: nat, i: nat)
    requires r < |s.requests|
  {
    i < |s.calls| && s.calls[i].outcome.Resolved? && |s.requests[r].effects| <= |s.calls[i].snapshot|
  }

  /** The request changed nothing since the process started, or one of its process's saves has its changes. */
  ghost predicate Covered(s: State, r: nat)
    requires r < |s.requests|
  {
    |s.requests[r].effects| <= |s.loaded| || exists i: nat :: SavedSince(s, r, i)
  }

  lemma PrefixesByLength(a: Snapshot, b: Snapshot, c: Snapshot)
    requires a <= c && b <= c && |a| <= |b|
    ensures a <= b
  {
    assert a == c[..|a|] && b == c[..|b|];
  }

  /** At any moment the file has a request's changes exactly when a save called after them has resolved. */
  lemma KeptIffCovered(s: State, r: nat)
    requires Inv(s) && r < |s.requests|
    ensures s.requests[r].effects <= Kept(s) <==> Covered(s, r)
    ensures s.requests[r].answer.Success? || (s.requests[r].call.Some? && SavedSince(s, r, s.requests[r].call.value)) ==> Covered(s, r)
  {
    var effects := s.requests[r].effects;
    if effects <= Kept(s) && Kept(s) != s.loaded {
      var i: nat :| Wrote(s, i);
      assert SavedSince(s, r, i);
    }
    if |effects| <= |s.loaded| {
      PrefixesByLength(effects, Kept(s), s.memory);
    } else if Covered(s, r) {
      var i: nat :| SavedSince(s, r, i);
      assert s.calls[i].snapshot in s.promised;
      PrefixesByLength(effects, Kept(s), s.memory);
    }
  }

  ghost predicate NoCrash(steps: seq<Step>, n: nat, m: nat)
    requires m <= |steps|
  {
    forall k :: n <= k < m ==> !steps[k].Crash?
  }

  lemma StepKeepsEffects(s: State, step: Step, r: nat)
    requires Enabled(s, step) && !step.Crash? && r < |s.requests|
    ensures r < |Next(s, step).requests| && Next(s, step).requests[r].effects == s.requests[r].effects
  {
  }

  lemma {:induction false} EffectsStay(states: seq<State>, steps: seq<Step>, n: nat, m: nat, r: nat)
    requires IsRun(states, steps) && n <= m < |states| && NoCrash(steps, n, m) && r < |states[n].requests|
    ensures r < |states[m].requests| && states[m].requests[r].effects == states[n].requests[r].effects
  {
    hide Next, Enabled;
    if n < m {
      EffectsStay(states, steps, n, m - 1, r);
      assert states[m - 1 + 1] == Next(states[m - 1], steps[m - 1]);
      StepKeepsEffects(states[m - 1], steps[m - 1], r);
    }
  }

  /**
   What becomes of a request when its process crashes, whatever it was answered: the file has its changes at every
   later moment if and only if a save of that process called after them had resolved.  A successful answer means that
   one has; an error answer does not, because the rejection of the save before it is swallowed.
   */
  lemma ChangesSurviveCrashIffSaved(states: seq<State>, steps: seq<Step>, n: nat, m: nat, r: nat)
    requires IsRun(states, steps) && Inv(states[0]) && n <= m < |steps|
    requires NoCrash(steps, n, m) && steps[m].Crash? && r < |states[n].requests|
    ensures r < |states[m].requests|
    ensures (forall k :: m < k < |states| ==> states[n].requests[r].effects <= Kept(states[k])) <==> Covered(states[m], r)
    ensures states[m].requests[r].answer.Success? ==> Covered(states[m], r)
  {
    hide Next, Enabled, Inv, Covered, SavedSince;
    EffectsStay(states, steps, n, m, r);
    EveryStateOk(states, steps, m);
    KeptIffCovered(states[m], r);
    CrashKeepsFile(states, steps, m);
    var effects := states[n].requests[r].effects;
    forall k | m < k < |states| && effects <= Kept(states[m]) ensures effects <= Kept(states[k]) {
      FileNeverTornOrOlder(states, steps, m, k);
      KeptForward(states[m], states[k], effects);
    }
  }

  /** What a request is from one state of its process to the next: the error way is never left, an answer never changed. */
  ghost predicate Goes(a: Request, b: Request) {
    (a.failed ==> b.failed) && (a.answer != Unanswered ==> b.answer == a.answer)
    && (a.failed && a.answer == Unanswered ==> b.answer != Success)
  }

  lemma StepGoes(s: State, step: Step, r: nat)
    requires Enabled(s, step) && !step.Crash? && r < |s.requests|
    ensures r < |Next(s, step).requests| && Goes(s.requests[r], Next(s, step).requests[r])
  {
  }

  /** A request that has gone the error way, be it by a second save, is never answered with success, and no answer changes. */
  lemma {:induction false} ErrorsStayErrors(states: seq<State>, steps: seq<Step>, n: nat, m: nat, r: nat)
    requires IsRun(states, steps) && n <= m < |states| && NoCrash(steps, n, m) && r < |states[n].requests|
    ensures r < |states[m].requests| && Goes(states[n].requests[r], states[m].requests[r])
  {
    hide Next, Enabled;
    if n < m {
      ErrorsStayErrors(states, steps, n, m - 1, r);
      assert states[m - 1 + 1] == Next(states[m - 1], steps[m - 1]);
      StepGoes(states[m - 1], steps[m - 1], r);
    }
  }

  /** A second save puts a request that had not failed on the error way, waiting for that save. */
  lemma SecondSaveMeansError(s: State, r: nat)
    requires Enabled(s, SaveAgain(r))
    ensures var n := Next(s, SaveAgain(r));
            && n.calls == s.calls + [Call(s.memory, Unsettled)]
            && n.requests == s.requests[r := s.requests[r].(failed := true, call := Some(|s.calls|))]
            && !Enabled(n, AnswerSuccess(r)) && !Enabled(n, AnswerFailure(r))
  {
  }

  lemma CrashKeepsFile(states: seq<State>, steps: seq<Step>, m: nat)
    requires IsRun(states, steps) && m < |steps| && steps[m].Crash?
    ensures m + 1 < |states| && Kept(states[m + 1]) == Kept(states[m])
  {
  }

  lemma KeptForward(a: State, b: State, effects: Snapshot)
    requires Forward(a, b) && effects <= Kept(a)
    ensures effects <= Kept(b)
  {
    if a.file.Whole? { PrefixTransitive(effects, a.file.snapshot, b.file.snapshot); }
  }

  // A captured payment's refund notice is change 0: the purchase fails, so does the write, and the client is told.

  const NOTICE := Request([0], true, Some(0), Unanswered)
  const CHANGED := START.(memory := [0])
  const THROWN := CHANGED.(requests := [NOTICE.(call := None)])
  const CALLED := CHANGED.(requests := [NOTICE], calls := [Call([0], Unsettled)], taken := {[0]})
  const REJECTED := CALLED.(calls := [Call([0], Rejected)], head := 1, pending := Torn)
  const TOLD := REJECTED.(requests := [NOTICE.(answer := Failure)])
  const RESTARTED := START.(taken := {[0]}, pending := Torn)

  const NOTICE_STEPS := [
    Mutate(0), HandlerDone(false, 1), SaveFor(0), StartHead, ChmodDone(true), WriteDone(false), AnswerFailure(0), Crash]

  const NOTICE_STATES := [
    START, CHANGED, THROWN, CALLED, CALLED.(phase := Chmod), CALLED.(phase := Write), REJECTED, TOLD, RESTARTED]

  lemma NoticeIsWritten()
    ensures Leads(START, Mutate(0), CHANGED) && Leads(CHANGED, HandlerDone(false, 1), THROWN) && Leads(THROWN, SaveFor(0), CALLED)
  {
    var one: Snapshot := [0];
    assert one[..1] == one;
  }

  lemma NoticeIsLost()
    ensures Leads(CALLED, StartHead, CALLED.(phase := Chmod)) && Leads(CALLED.(phase := Chmod), ChmodDone(true), CALLED.(phase := Write))
    ensures Leads(CALLED.(phase := Write), WriteDone(false), REJECTED)
    ensures Leads(REJECTED, AnswerFailure(0), TOLD) && Leads(TOLD, Crash, RESTARTED)
  {
  }

  /** It does happen: an error answer has been given, the process crashes, and what the answer told of is gone. */
  lemma ErrorAnswerCanBeLost()
    ensures Inv(NOTICE_STATES[0]) && IsRun(NOTICE_STATES, NOTICE_STEPS)
    ensures NOTICE_STATES[7].requests == [Request([0], true, Some(0), Failure)] && !([0] <= Kept(NOTICE_STATES[8]))
  {
    StartOk();
    NoticeIsWritten();
    NoticeIsLost();
    hide Inv, Enabled, Next;
    assert NOTICE_STATES[0] == START;
    forall k | 0 <= k < |NOTICE_STEPS| ensures Leads(NOTICE_STATES[k], NOTICE_STEPS[k], NOTICE_STATES[k + 1]) {
      assert k == 0 || k == 1 || k == 2 || k == 3 || k == 4 || k == 5 || k == 6 || k == 7;
    }
  }
}
