/** JavaScript's stable `sort` by a numeric key, on the positions of the elements. */
module StableSort {
  import opened Prelude

  function Insert(ids: seq<nat>, key: nat -> int, x: nat): seq<nat> {
    if ids == [] || key(x) <= key(ids[0]) then [x] + ids else [ids[0]] + Insert(ids[1..], key, x)
  }

  function Sort(ids: seq<nat>, key: nat -> int): seq<nat> {
    if ids == [] then [] else Insert(Sort(ids[1..], key), key, ids[0])
  }

  ghost predicate Increasing(ids: seq<nat>) {
    forall i, j :: 0 <= i < j < |ids| ==> ids[i] < ids[j]
  }

  /** `a` comes before `b`: a smaller key, or the same key and the earlier position. */
  predicate Before(key: nat -> int, a: nat, b: nat) {
    key(a) < key(b) || (key(a) == key(b) && a < b)
  }

  ghost predicate Ordered(ids: seq<nat>, key: nat -> int) {
    forall i, j :: 0 <= i < j < |ids| ==> Before(key, ids[i], ids[j])
  }

  lemma InTail(ids: seq<nat>, i: nat)
    requires ids != []
    ensures i in ids <==> i == ids[0] || i in ids[1..]
  {
  }

  lemma {:induction false} InsertOrdered(ids: seq<nat>, key: nat -> int, x: nat)
    requires Ordered(ids, key) && forall i :: i in ids ==> x < i
    ensures Ordered(Insert(ids, key, x), key)
    ensures forall i :: i in Insert(ids, key, x) <==> i == x || i in ids
    ensures |Insert(ids, key, x)| == |ids| + 1
  {
    if ids != [] {
      forall i ensures i in ids <==> i == ids[0] || i in ids[1..] { InTail(ids, i); }
      if key(x) <= key(ids[0]) {
        forall j | 0 <= j < |ids| ensures Before(key, x, ids[j]) {
          assert ids[j] in ids;
        }
      } else {
        InsertOrdered(ids[1..], key, x);
        var rest := Insert(ids[1..], key, x);
        forall j | 0 <= j < |rest| ensures Before(key, ids[0], rest[j]) {
          assert rest[j] in rest;
          if rest[j] != x { var k :| 0 <= k < |ids[1..]| && ids[1..][k] == rest[j]; }
        }
        assert Insert(ids, key, x) == [ids[0]] + rest;
      }
    }
  }

  /** Sorting keeps exactly the given positions and puts them in key order, ties in their original order. */
  lemma {:induction false} SortOrders(ids: seq<nat>, key: nat -> int)
    requires Increasing(ids)
    ensures Ordered(Sort(ids, key), key) && |Sort(ids, key)| == |ids|
    ensures forall i :: i in Sort(ids, key) <==> i in ids
  {
    if ids != [] {
      SortOrders(ids[1..], key);
      forall i ensures i in ids <==> i == ids[0] || i in ids[1..] { InTail(ids, i); }
      InsertOrdered(Sort(ids[1..], key), key, ids[0]);
    }
  }
}
