/** What one call of a retry runner does, told from the receipts there are: which calls reach the handler, and what stays. */
module RetryAnswers {
  import opened Prelude
  import opened RetryReceipts

  /** Old enough to be pruned when the clock shows `now`. */
  predicate Stale<P, C>(retention: Option<nat>, x: Receipt<P, C>, now: int) {
    retention.Some? && x.createdAt < now - retention.value
  }

  /** A receipt the call meets: of the same kind, user and key, not stale. */
  ghost predicate Meets<S, P(!new), R, C(!new), E>(m: Runner<S, P, R, C, E>, s: State<S, P, C>, call: Call<P>, x: Receipt<P, C>) {
    x in s.receipts && x.key == call.key && !Stale(m.retention, x, call.now)
  }

  /**
   A call that meets a receipt does not reach the handler: it gets the stored response if it asks for the same, and a
   conflict otherwise.  Stale receipts are dropped and nothing else changes.
   */
  lemma MetReceiptAnswers<S, P(!new), R, C(!new), E>(m: Runner<S, P, R, C, E>, s: State<S, P, C>, call: Call<P>, x: Receipt<P, C>)
    requires UniqueKeys(s.receipts) && Meets(m, s, call, x) && !(m.bypass && call.key.key == "")
    ensures var (r, answer) := Run(m, s, call);
            && answer == (if x.payload == call.payload then Answered(m.decode(x.stored)) else Conflict)
            && r.db == s.db
            && forall y :: y in r.receipts <==> y in s.receipts && !Stale(m.retention, y, call.now)
  {
    PrunedMembers(m.retention, s.receipts, call.now);
    hide Pruned, Prune;
  }

  /**
   Any other call under a key reaches the handler.  What the handler did to the database stays, whether it succeeded or
   failed; a success leaves a receipt of this call with its encoded response, a failure none.
   */
  lemma UnmetCallAnswers<S, P(!new), R, C(!new), E>(m: Runner<S, P, R, C, E>, s: State<S, P, C>, call: Call<P>)
    requires (forall x :: !Meets(m, s, call, x)) && !(m.bypass && call.key.key == "")
    ensures var (r, answer) := Run(m, s, call);
            var (db, result) := m.mutate(s.db, call.key, call.payload, call.now);
            && answer == (if result.Ok? then Answered(result.value) else Failed(result.error))
            && r.db == db
            && forall y :: y in r.receipts <==>
                 || (y in s.receipts && !Stale(m.retention, y, call.now))
                 || (result.Ok? && y == Receipt(call.key, call.payload, m.encode(result.value), call.now))
  {
    PrunedMembers(m.retention, s.receipts, call.now);
    forall x | x in Pruned(m.retention, s.receipts, call.now) ensures x.key != call.key { assert !Meets(m, s, call, x); }
    hide Pruned, Prune, Find;
  }

  /** Without a key, where the runner allows that, the handler is simply called, and no receipt is touched. */
  lemma KeylessCallAnswers<S, P, R, C, E>(m: Runner<S, P, R, C, E>, s: State<S, P, C>, call: Call<P>)
    requires m.bypass && call.key.key == ""
    ensures var (r, answer) := Run(m, s, call);
            var (db, result) := m.mutate(s.db, call.key, call.payload, call.now);
            r == State(db, s.receipts) && answer == if result.Ok? then Answered(result.value) else Failed(result.error)
  {
  }

  /** One runner forgets after seven days and lets keyless calls pass; the other never forgets and knows no keyless call. */
  lemma RunnersAsTold<S, P, R, C, E>(encode: R -> C, decode: C -> R, mutate: (S, Key, P, int) -> (S, Result<R, E>), r: R)
    ensures var m: Runner<S, P, R, R, E> := MutationRunner(mutate);
            m.retention == Some(604800000) && m.bypass && m.encode(r) == r && m.decode(r) == r && m.mutate == mutate
    ensures var m: Runner<S, P, R, C, E> := RecordRunner(encode, decode, mutate);
            m.retention == None && !m.bypass && m.encode == encode && m.decode == decode && m.mutate == mutate
  {
  }
}
