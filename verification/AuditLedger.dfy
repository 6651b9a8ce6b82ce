/**
 The hash-chained ledger (backend/persistence.js).  The digest of an entry without its own hash is a parameter,
 assumed injective and never empty nor "GENESIS" where a property needs it.
 */
module AuditLedger {
  import opened Prelude

  datatype Body = Body(index: nat, at: int, actorId: string, action: string, payload: string, previousHash: string)

  datatype Entry = Entry(body: Body, hash: string)

  /** What a caller of `appendLedger` brings, with the clock reading of the call. */
  datatype Record = Record(at: int, actorId: string, action: string, payload: string)

  const GENESIS := "GENESIS"

  ghost predicate GoodDigest(digest: Body -> string) {
    (forall a, b :: digest(a) == digest(b) ==> a == b) && forall a :: digest(a) != GENESIS && digest(a) != ""
  }

  /** `db.ledger.at(-1)?.hash || "GENESIS"` */
  function Tip(entries: seq<Entry>): string {
    if entries == [] || entries[|entries| - 1].hash == "" then GENESIS else entries[|entries| - 1].hash
  }

  function NewEntry(entries: seq<Entry>, digest: Body -> string, r: Record): Entry {
    var body := Body(|entries|, r.at, r.actorId, r.action, r.payload, Tip(entries));
    Entry(body, digest(body))
  }

  /** The ledger after these calls of `appendLedger`, in this order. */
  function Build(records: seq<Record>, digest: Body -> string): (r: seq<Entry>)
    ensures |r| == |records|
  {
    if records == [] then []
    else
      var before := Build(records[..|records| - 1], digest);
      before + [NewEntry(before, digest, records[|records| - 1])]
  }

  /** The entry at `i` points at the one before it and carries its own digest. */
  ghost predicate Linked(entries: seq<Entry>, digest: Body -> string, i: nat)
    requires i < |entries|
  {
    entries[i].body.previousHash == (if i == 0 then GENESIS else entries[i - 1].hash) && digest(entries[i].body) == entries[i].hash
  }

  ghost predicate Chained(entries: seq<Entry>, digest: Body -> string) {
    forall i :: 0 <= i < |entries| ==> Linked(entries, digest, i)
  }

  /** Everything before `i` is chained and the entry at `i` is not. */
  ghost predicate FirstBreak(entries: seq<Entry>, digest: Body -> string, i: nat) {
    i < |entries| && Chained(entries[..i], digest) && !Linked(entries, digest, i)
  }

  ghost predicate PointsElsewhere(entries: seq<Entry>, i: nat) {
    i < |entries| && entries[i].body.previousHash != (if i == 0 then GENESIS else entries[i - 1].hash)
  }

  lemma BreakMeansUnchained(entries: seq<Entry>, digest: Body -> string, i: nat)
    requires i < |entries| && !Linked(entries, digest, i) && forall k :: 0 <= k < i ==> Linked(entries, digest, k)
    ensures !Chained(entries, digest) && FirstBreak(entries, digest, i)
  {
    forall k | 0 <= k < i ensures Linked(entries[..i], digest, k) { assert Linked(entries, digest, k); }
  }

  datatype Verdict = Sound | BrokenPreviousHash(at: nat) | HashMismatch(at: nat)

  class Ledger {
    var entries: seq<Entry>
    const digest: Body -> string

    constructor (digest: Body -> string)
      ensures entries == [] && this.digest == digest
    {
      entries := [];
      this.digest := digest;
    }

    /** `appendLedger` */
    method Append(at: int, actorId: string, action: string, payload: string)
      modifies this
      ensures entries == old(entries) + [NewEntry(old(entries), digest, Record(at, actorId, action, payload))]
      ensures forall records :: old(entries) == Build(records, digest) ==>
                entries == Build(records + [Record(at, actorId, action, payload)], digest)
    {
      var record := Record(at, actorId, action, payload);
      var previousHash := Tip(entries);
      var body := Body(|entries|, at, actorId, action, payload, previousHash);
      forall records | entries == Build(records, digest)
        ensures Build(records + [record], digest) == entries + [NewEntry(entries, digest, record)]
      {
        assert (records + [record])[..|records|] == records;
      }
      entries := entries + [Entry(body, digest(body))];
    }

    /** `verifyLedger`: accepts exactly the chained ledgers, and otherwise names the first entry that breaks the chain. */
    method Verify() returns (verdict: Verdict)
      ensures verdict.Sound? <==> Chained(entries, digest)
      ensures !verdict.Sound? ==> exists i: nat :: FirstBreak(entries, digest, i) && verdict.at == entries[i].body.index
      ensures verdict.BrokenPreviousHash? ==>
                exists i: nat :: FirstBreak(entries, digest, i) && PointsElsewhere(entries, i) && verdict.at == entries[i].body.index
      ensures verdict.HashMismatch? ==>
                exists i: nat :: FirstBreak(entries, digest, i) && !PointsElsewhere(entries, i) && verdict.at == entries[i].body.index
    {
      var previousHash := GENESIS;
      for i := 0 to |entries|
        invariant previousHash == if i == 0 then GENESIS else entries[i - 1].hash
        invariant forall k :: 0 <= k < i ==> Linked(entries, digest, k)
      {
        if entries[i].body.previousHash != previousHash {
          BreakMeansUnchained(entries, digest, i);
          assert PointsElsewhere(entries, i);
          return BrokenPreviousHash(entries[i].body.index);
        }
        if digest(entries[i].body) != entries[i].hash {
          BreakMeansUnchained(entries, digest, i);
          return HashMismatch(entries[i].body.index);
        }
        previousHash := entries[i].hash;
      }
      return Sound;
    }
  }

  // ------------------------------------------------------------------------------------- properties

  /** Whatever is appended, the ledger verifies, and entry `i` has index `i`. */
  lemma {:induction false} BuiltLedgersVerify(records: seq<Record>, digest: Body -> string)
    requires GoodDigest(digest)
    ensures Chained(Build(records, digest), digest)
    ensures forall i :: 0 <= i < |records| ==> Build(records, digest)[i].body.index == i
  {
    if records != [] {
      var before, all := Build(records[..|records| - 1], digest), Build(records, digest);
      BuiltLedgersVerify(records[..|records| - 1], digest);
      forall i | 0 <= i < |all| ensures Linked(all, digest, i) {
        if i < |before| { assert Linked(before, digest, i); }
        else if i > 0 { assert Linked(before, digest, i - 1); }
      }
    }
  }

  /** Entry `i` is what the `i`th call brought, under the hash of the entry before it, with the digest of all that. */
  lemma {:induction false} EntriesTellTheCalls(records: seq<Record>, digest: Body -> string, i: nat)
    requires GoodDigest(digest) && i < |records|
    ensures var entries := Build(records, digest);
            var body := Body(i, records[i].at, records[i].actorId, records[i].action, records[i].payload,
                             if i == 0 then "GENESIS" else entries[i - 1].hash);
            entries[i] == Entry(body, digest(body))
  {
    var init := records[..|records| - 1];
    if i < |init| { EntriesTellTheCalls(init, digest, i); }
    else if i > 0 { EntriesTellTheCalls(init, digest, i - 1); }
  }

  /** The ledger of any earlier moment is a prefix of the ledger of any later one. */
  lemma {:induction false} EarlierLedgersArePrefixes(records: seq<Record>, digest: Body -> string, n: nat)
    requires n <= |records|
    ensures Build(records[..n], digest) <= Build(records, digest)
  {
    if n < |records| {
      EarlierLedgersArePrefixes(records[..|records| - 1], digest, n);
      assert records[..|records| - 1][..n] == records[..n];
    } else {
      assert records[..n] == records;
    }
  }

  lemma LinkedInit(entries: seq<Entry>, digest: Body -> string)
    requires entries != [] && Chained(entries, digest)
    ensures Chained(entries[..|entries| - 1], digest)
  {
    var init := entries[..|entries| - 1];
    forall i | 0 <= i < |init| ensures Linked(init, digest, i) { assert Linked(entries, digest, i); }
  }

  /** The entry before the last is named by the last's `previousHash`, which is "GENESIS" only when there is none. */
  lemma PreviousIsTip(entries: seq<Entry>, digest: Body -> string)
    requires GoodDigest(digest) && entries != [] && Chained(entries, digest)
    ensures var init := entries[..|entries| - 1];
            entries[|init|].body.previousHash == Tip(init) && (init == [] <==> Tip(init) == GENESIS)
            && entries[|init|].hash == digest(entries[|init|].body) == Tip(entries)
  {
    var last := |entries| - 1;
    assert Linked(entries, digest, last);
    if last > 0 { assert Linked(entries, digest, last - 1); }
  }

  /** Two verifying ledgers with the same last hash are the same ledger, entry for entry and in length. */
  lemma {:induction false} LastHashFixesTheLedger(a: seq<Entry>, b: seq<Entry>, digest: Body -> string)
    requires GoodDigest(digest) && Chained(a, digest) && Chained(b, digest) && Tip(a) == Tip(b)
    ensures a == b
    decreases |a|
  {
    if a == [] {
      if b != [] { PreviousIsTip(b, digest); }
    } else if b == [] {
      PreviousIsTip(a, digest);
    } else {
      PreviousIsTip(a, digest);
      PreviousIsTip(b, digest);
      LinkedInit(a, digest);
      LinkedInit(b, digest);
      LastHashFixesTheLedger(a[..|a| - 1], b[..|b| - 1], digest);
      assert a == a[..|a| - 1] + [a[|a| - 1]] && b == b[..|b| - 1] + [b[|b| - 1]];
    }
  }

  /** So a ledger that still verifies and still ends in the hash that was noted has not been edited at all. */
  lemma EditsAreNoticed(records: seq<Record>, found: seq<Entry>, digest: Body -> string)
    requires GoodDigest(digest) && Chained(found, digest)
    ensures found == Build(records, digest) <==> Tip(found) == Tip(Build(records, digest))
  {
    BuiltLedgersVerify(records, digest);
    if Tip(found) == Tip(Build(records, digest)) { LastHashFixesTheLedger(found, Build(records, digest), digest); }
  }
}
