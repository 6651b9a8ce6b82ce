/** Hybrid show ranking (src/data/ranking.ts): pinned shows in their slots, the other slots filled by demand. */
module Ranking {
  import opened Prelude
  import opened StableSort

  datatype Show = Show(slug: string, pinnedRank: Option<int>, soldCount: int)

  // ------------------------------------------------------------------------------- what is computed

  /** The first show pinned to a rank. */
  function PinnedAt(shows: seq<Show>, rank: int): (r: Option<Show>)
    ensures r.Some? ==> r.value in shows && r.value.pinnedRank == Some(rank)
  {
    if shows == [] then None
    else
      var last := shows[|shows| - 1];
      var earlier := PinnedAt(shows[..|shows| - 1], rank);
      if earlier.Some? then earlier else if last.pinnedRank == Some(rank) then Some(last) else None
  }

  function Pins(shows: seq<Show>, slots: nat): seq<Option<Show>> {
    seq(slots, k requires 0 <= k < slots => PinnedAt(shows, k + 1))
  }

  function Claimed(pins: seq<Option<Show>>): set<string> {
    set k | 0 <= k < |pins| && pins[k].Some? :: pins[k].value.slug
  }

  /** Positions of the shows whose slug is not claimed. */
  function Unclaimed(shows: seq<Show>, claimed: set<string>): (r: seq<nat>)
    ensures forall k :: 0 <= k < |r| ==> r[k] < |shows| && shows[r[k]].slug !in claimed
    ensures forall i :: i in r <==> 0 <= i < |shows| && shows[i].slug !in claimed
    ensures Increasing(r)
  {
    if shows == [] then []
    else
      var last := |shows| - 1;
      var before := Unclaimed(shows[..last], claimed);
      if shows[last].slug !in claimed then before + [last] else before
  }

  function Demand(shows: seq<Show>): nat -> int {
    (i: nat) => if i < |shows| then -shows[i].soldCount else 0
  }

  /** The unclaimed shows by demand, ties in their original order. */
  function ByDemand(shows: seq<Show>, claimed: set<string>): (r: seq<Show>)
    ensures |r| == |Unclaimed(shows, claimed)|
  {
    var ids := Sort(Unclaimed(shows, claimed), Demand(shows));
    SortOrders(Unclaimed(shows, claimed), Demand(shows));
    assert forall k :: 0 <= k < |ids| ==> ids[k] in ids;
    seq(|ids|, k requires 0 <= k < |ids| => shows[ids[k]])
  }

  /** Fills the open slots from the front of the demand list; slots beyond its end stay empty. */
  function Fill(pins: seq<Option<Show>>, auto: seq<Show>): (r: seq<Option<Show>>)
    ensures |r| == |pins|
  {
    if pins == [] then []
    else if pins[0].Some? then [pins[0]] + Fill(pins[1..], auto)
    else if auto == [] then [None] + Fill(pins[1..], [])
    else [Some(auto[0])] + Fill(pins[1..], auto[1..])
  }

  function Shown(slots: seq<Option<Show>>): seq<Show> {
    if slots == [] then [] else (if slots[0].Some? then [slots[0].value] else []) + Shown(slots[1..])
  }

  function Rank(shows: seq<Show>, slots: nat): seq<Show> {
    var pins := Pins(shows, slots);
    Shown(Fill(pins, ByDemand(shows, Claimed(pins))))
  }

  // ------------------------------------------------------------------------------ what it guarantees

  ghost predicate DistinctSlugs(shows: seq<Show>) {
    forall i, j :: 0 <= i < j < |shows| ==> shows[i].slug != shows[j].slug
  }

  /** The first show in the list that is pinned to this rank. */
  ghost predicate FirstPinned(shows: seq<Show>, rank: int, s: Show) {
    exists i :: 0 <= i < |shows| && shows[i] == s && s.pinnedRank == Some(rank)
                && forall j :: 0 <= j < i ==> shows[j].pinnedRank != Some(rank)
  }

  /** Holds its slot by a pin rather than by demand. */
  ghost predicate HoldsSlot(shows: seq<Show>, slots: nat, s: Show) {
    exists rank :: 1 <= rank <= slots && FirstPinned(shows, rank, s)
  }

  lemma PinnedAtIsFirst(shows: seq<Show>, rank: int, s: Show)
    ensures PinnedAt(shows, rank) == Some(s) <==> FirstPinned(shows, rank, s)
  {
    if PinnedAt(shows, rank).Some? {
      var i := FirstIndex(shows, rank);
      if FirstPinned(shows, rank, s) {
        var k :| 0 <= k < |shows| && shows[k] == s && s.pinnedRank == Some(rank) && forall j :: 0 <= j < k ==> shows[j].pinnedRank != Some(rank);
        assert k == i;
      }
    } else {
      NoneBefore(shows, rank);
    }
  }

  lemma {:induction false} FirstIndex(shows: seq<Show>, rank: int) returns (i: nat)
    requires PinnedAt(shows, rank).Some?
    ensures i < |shows| && PinnedAt(shows, rank) == Some(shows[i]) && shows[i].pinnedRank == Some(rank)
    ensures forall j :: 0 <= j < i ==> shows[j].pinnedRank != Some(rank)
  {
    var init := shows[..|shows| - 1];
    if PinnedAt(init, rank).Some? {
      i := FirstIndex(init, rank);
      assert forall j :: 0 <= j <= i ==> shows[j] == init[j];
    } else {
      NoneBefore(init, rank);
      i := |shows| - 1;
      assert forall j :: 0 <= j < i ==> shows[j] == init[j];
    }
  }

  lemma {:induction false} NoneBefore(shows: seq<Show>, rank: int)
    requires PinnedAt(shows, rank).None?
    ensures forall i :: 0 <= i < |shows| ==> shows[i].pinnedRank != Some(rank)
  {
    if shows != [] { NoneBefore(shows[..|shows| - 1], rank); }
  }

  function Open(pins: seq<Option<Show>>): nat {
    if pins == [] then 0 else (if pins[0].Some? then 0 else 1) + Open(pins[1..])
  }

  function Smaller(a: nat, b: nat): nat { if a < b then a else b }

  lemma {:induction false} FillLength(pins: seq<Option<Show>>, auto: seq<Show>)
    ensures Open(pins) <= |pins|
    ensures |Shown(Fill(pins, auto))| == |pins| - Open(pins) + Smaller(Open(pins), |auto|)
  {
    if pins != [] { FillLength(pins[1..], if pins[0].Some? || auto == [] then auto else auto[1..]); }
  }

  /** With enough shows to fill every slot, nothing shifts: each slot shows what was put into it. */
  lemma {:induction false} FullSlotsStay(pins: seq<Option<Show>>, auto: seq<Show>, k: nat)
    requires Open(pins) <= |auto| && k < |pins| && pins[k].Some?
    ensures k < |Shown(Fill(pins, auto))| && Shown(Fill(pins, auto))[k] == pins[k].value
  {
    if k > 0 { FullSlotsStay(pins[1..], if pins[0].Some? then auto else auto[1..], k - 1); }
  }

  function Free(shows: seq<Show>, claimed: set<string>): seq<Show> {
    if shows == [] then [] else (if shows[0].slug !in claimed then [shows[0]] else []) + Free(shows[1..], claimed)
  }

  lemma ShownStep(pins: seq<Option<Show>>, auto: seq<Show>)
    requires pins != []
    ensures Shown(Fill(pins, auto))
            == if pins[0].Some? then [pins[0].value] + Shown(Fill(pins[1..], auto))
               else if auto == [] then Shown(Fill(pins[1..], auto))
               else [auto[0]] + Shown(Fill(pins[1..], auto[1..]))
  {
  }

  lemma FreeStep(first: Show, shows: seq<Show>, claimed: set<string>)
    ensures Free([first] + shows, claimed) == (if first.slug !in claimed then [first] else []) + Free(shows, claimed)
  {
    assert ([first] + shows)[1..] == shows;
  }

  /** What is shown and not pinned is the front of the demand list, in its order. */
  lemma {:induction false} DemandInOrder(pins: seq<Option<Show>>, auto: seq<Show>, claimed: set<string>)
    requires forall k :: 0 <= k < |pins| && pins[k].Some? ==> pins[k].value.slug in claimed
    requires forall k :: 0 <= k < |auto| ==> auto[k].slug !in claimed
    ensures Free(Shown(Fill(pins, auto)), claimed) == auto[..Smaller(Open(pins), |auto|)]
  {
    if pins == [] {
      assert Shown(Fill(pins, auto)) == [];
    } else {
      var rest := if pins[0].Some? || auto == [] then auto else auto[1..];
      var open := Open(pins[1..]);
      assert Open(pins) == if pins[0].Some? then open else open + 1;
      ShownStep(pins, auto);
      hide Fill, Shown, Open;
      DemandInOrder(pins[1..], rest, claimed);
      var others := Shown(Fill(pins[1..], rest));
      if pins[0].Some? {
        FreeStep(pins[0].value, others, claimed);
      } else if auto != [] {
        FreeStep(auto[0], others, claimed);
        FrontStep(auto, open);
      }
      hide Free;
    }
  }

  lemma FrontStep(auto: seq<Show>, n: nat)
    requires auto != []
    ensures auto[..Smaller(n + 1, |auto|)] == [auto[0]] + auto[1..][..Smaller(n, |auto| - 1)]
  {
  }

  lemma {:induction false} FreeMembers(shows: seq<Show>, claimed: set<string>, s: Show)
    ensures s in Free(shows, claimed) <==> s in shows && s.slug !in claimed
  {
    if shows != [] {
      FreeMembers(shows[1..], claimed, s);
      assert s in shows <==> s == shows[0] || s in shows[1..];
    }
  }

  /** Two of the free ones are among the free ones in the same order. */
  lemma {:induction false} FreePlaces(shows: seq<Show>, claimed: set<string>, i: nat, j: nat) returns (k: nat, l: nat)
    requires i < j < |shows| && shows[i].slug !in claimed && shows[j].slug !in claimed
    ensures k < l < |Free(shows, claimed)| && Free(shows, claimed)[k] == shows[i] && Free(shows, claimed)[l] == shows[j]
  {
    var front, rest := if shows[0].slug !in claimed then [shows[0]] else [], Free(shows[1..], claimed);
    assert Free(shows, claimed) == front + rest;
    assert shows[1..][j - 1] == shows[j];
    hide Free;
    if i == 0 {
      FreeMembers(shows[1..], claimed, shows[j]);
      var b :| 0 <= b < |rest| && rest[b] == shows[j];
      k, l := 0, b + 1;
    } else {
      k, l := FreePlaces(shows[1..], claimed, i - 1, j - 1);
      k, l := k + |front|, l + |front|;
    }
  }

  lemma FreeOrder(shows: seq<Show>, claimed: set<string>, i: nat, j: nat)
    requires i < j < |shows| && shows[i].slug !in claimed && shows[j].slug !in claimed
    requires forall a, b :: 0 <= a < b < |Free(shows, claimed)| ==> Free(shows, claimed)[a].soldCount >= Free(shows, claimed)[b].soldCount
    ensures shows[i].soldCount >= shows[j].soldCount
  {
    var k, l := FreePlaces(shows, claimed, i, j);
    hide Free;
  }

  lemma {:induction false} ShownMembers(pins: seq<Option<Show>>, auto: seq<Show>, s: Show)
    ensures Some(s) in pins ==> s in Shown(Fill(pins, auto))
    ensures s in Shown(Fill(pins, auto)) ==> Some(s) in pins || s in auto
  {
    if pins != [] {
      var rest := if pins[0].Some? || auto == [] then auto else auto[1..];
      ShownMembers(pins[1..], rest, s);
      assert Some(s) in pins <==> pins[0] == Some(s) || Some(s) in pins[1..];
    }
  }

  lemma {:induction false} ShownDistinct(pins: seq<Option<Show>>, auto: seq<Show>)
    requires forall i, j :: 0 <= i < j < |pins| && pins[i].Some? && pins[j].Some? ==> pins[i].value.slug != pins[j].value.slug
    requires DistinctSlugs(auto)
    requires forall i, j :: 0 <= i < |pins| && 0 <= j < |auto| && pins[i].Some? ==> pins[i].value.slug != auto[j].slug
    ensures DistinctSlugs(Shown(Fill(pins, auto)))
  {
    if pins != [] {
      var tail := if pins[0].Some? || auto == [] then auto else auto[1..];
      ShownDistinct(pins[1..], tail);
      var rest := Shown(Fill(pins[1..], tail));
      if pins[0].Some? || auto != [] {
        var head := if pins[0].Some? then pins[0].value else auto[0];
        assert Shown(Fill(pins, auto)) == [head] + rest;
        forall k | 0 <= k < |rest| ensures rest[k].slug != head.slug {
          ShownMembers(pins[1..], tail, rest[k]);
          assert rest[k] in rest;
        }
      }
    }
  }

  // ------------------------------------------------------------------------------ counting the rest

  lemma {:induction false} UnclaimedCount(shows: seq<Show>, claimed: set<string>)
    requires DistinctSlugs(shows) && forall c :: c in claimed ==> exists i :: 0 <= i < |shows| && shows[i].slug == c
    ensures |Unclaimed(shows, claimed)| == |shows| - |claimed|
  {
    if shows == [] {
      assert claimed == {};
    } else {
      var last, init := shows[|shows| - 1], shows[..|shows| - 1];
      var others := claimed - {last.slug};
      forall c | c in others ensures exists i :: 0 <= i < |init| && init[i].slug == c {
        var i :| 0 <= i < |shows| && shows[i].slug == c;
        assert init[i].slug == c;
      }
      UnclaimedCount(init, others);
      UnclaimedSame(init, claimed, others);
    }
  }

  lemma {:induction false} UnclaimedSame(shows: seq<Show>, a: set<string>, b: set<string>)
    requires forall i :: 0 <= i < |shows| ==> (shows[i].slug in a <==> shows[i].slug in b)
    ensures Unclaimed(shows, a) == Unclaimed(shows, b)
  {
    if shows != [] { UnclaimedSame(shows[..|shows| - 1], a, b); }
  }

  lemma {:induction false} ClaimedCount(pins: seq<Option<Show>>)
    requires forall i, j :: 0 <= i < j < |pins| && pins[i].Some? && pins[j].Some? ==> pins[i].value.slug != pins[j].value.slug
    ensures |Claimed(pins)| == |pins| - Open(pins)
  {
    if pins == [] {
      assert Claimed(pins) == {};
    } else {
      var rest := pins[1..];
      ClaimedCount(rest);
      if pins[0].Some? {
        assert Claimed(pins) == Claimed(rest) + {pins[0].value.slug} by { ClaimedSplit(pins); }
        assert pins[0].value.slug !in Claimed(rest);
      } else {
        assert Claimed(pins) == Claimed(rest) by { ClaimedSplit(pins); }
      }
    }
  }

  lemma ClaimedSplit(pins: seq<Option<Show>>)
    requires pins != []
    ensures Claimed(pins) == Claimed(pins[1..]) + (if pins[0].Some? then {pins[0].value.slug} else {})
  {
    forall c ensures c in Claimed(pins) <==> c in Claimed(pins[1..]) || (pins[0].Some? && pins[0].value.slug == c) {
      if c in Claimed(pins) {
        var k :| 0 <= k < |pins| && pins[k].Some? && pins[k].value.slug == c;
        if k > 0 { assert pins[1..][k - 1] == pins[k]; }
      }
      if c in Claimed(pins[1..]) {
        var k :| 0 <= k < |pins[1..]| && pins[1..][k].Some? && pins[1..][k].value.slug == c;
        assert pins[k + 1] == pins[1..][k];
      }
    }
  }

  // ------------------------------------------------------------------------------------ the ranking

  lemma PinsDistinct(shows: seq<Show>, slots: nat)
    requires DistinctSlugs(shows)
    ensures var pins := Pins(shows, slots);
            && (forall i, j :: 0 <= i < j < slots && pins[i].Some? && pins[j].Some? ==> pins[i].value.slug != pins[j].value.slug)
            && (forall c :: c in Claimed(pins) ==> exists i :: 0 <= i < |shows| && shows[i].slug == c)
  {
    var pins := Pins(shows, slots);
    forall k | 0 <= k < slots && pins[k].Some? ensures pins[k].value in shows && pins[k].value.pinnedRank == Some(k + 1) {
      assert pins[k] == PinnedAt(shows, k + 1);
    }
    forall i, j | 0 <= i < j < slots && pins[i].Some? && pins[j].Some? ensures pins[i].value.slug != pins[j].value.slug {
      var a :| 0 <= a < |shows| && shows[a] == pins[i].value;
      var b :| 0 <= b < |shows| && shows[b] == pins[j].value;
      assert a != b;
    }
  }

  lemma ByDemandPairs(shows: seq<Show>, claimed: set<string>, i: nat, j: nat)
    requires i < j < |ByDemand(shows, claimed)|
    ensures ByDemand(shows, claimed)[i].soldCount >= ByDemand(shows, claimed)[j].soldCount
    ensures DistinctSlugs(shows) ==> ByDemand(shows, claimed)[i].slug != ByDemand(shows, claimed)[j].slug
  {
    var ids := Sort(Unclaimed(shows, claimed), Demand(shows));
    SortOrders(Unclaimed(shows, claimed), Demand(shows));
    hide Sort, Unclaimed;
    assert ids[i] in ids && ids[j] in ids && Before(Demand(shows), ids[i], ids[j]);
  }

  lemma ByDemandMembers(shows: seq<Show>, claimed: set<string>, s: Show)
    ensures s in ByDemand(shows, claimed) <==> s in shows && s.slug !in claimed
  {
    var ids, r := Sort(Unclaimed(shows, claimed), Demand(shows)), ByDemand(shows, claimed);
    SortOrders(Unclaimed(shows, claimed), Demand(shows));
    hide Sort, Unclaimed;
    assert forall k :: 0 <= k < |ids| ==> ids[k] in ids && r[k] == shows[ids[k]];
    if s in shows && s.slug !in claimed {
      var i: nat :| i < |shows| && shows[i] == s;
      assert i in ids;
      var k :| 0 <= k < |ids| && ids[k] == i;
      assert r[k] == s;
    }
  }

  lemma ByDemandFacts(shows: seq<Show>, claimed: set<string>)
    ensures var r := ByDemand(shows, claimed);
            && (forall s :: s in r <==> s in shows && s.slug !in claimed)
            && (forall i, j :: 0 <= i < j < |r| ==> r[i].soldCount >= r[j].soldCount)
            && (DistinctSlugs(shows) ==> DistinctSlugs(r))
  {
    hide ByDemand;
    var r := ByDemand(shows, claimed);
    forall s ensures s in r <==> s in shows && s.slug !in claimed { ByDemandMembers(shows, claimed, s); }
    forall i, j | 0 <= i < j < |r|
      ensures r[i].soldCount >= r[j].soldCount && (DistinctSlugs(shows) ==> r[i].slug != r[j].slug)
    {
      ByDemandPairs(shows, claimed, i, j);
    }
  }

  /** A show is pinned into a slot exactly when its slug is among the claimed ones. */
  lemma ClaimedMeansPinned(shows: seq<Show>, slots: nat, s: Show)
    requires DistinctSlugs(shows) && s in shows
    ensures s.slug in Claimed(Pins(shows, slots)) <==> HoldsSlot(shows, slots, s)
    ensures s.slug in Claimed(Pins(shows, slots)) <==> Some(s) in Pins(shows, slots)
  {
    var pins := Pins(shows, slots);
    if s.slug in Claimed(pins) {
      var k :| 0 <= k < |pins| && pins[k].Some? && pins[k].value.slug == s.slug;
      assert pins[k].value in shows && pins[k] == PinnedAt(shows, k + 1);
      var a :| 0 <= a < |shows| && shows[a] == s;
      var b :| 0 <= b < |shows| && shows[b] == pins[k].value;
      assert a == b;
      PinnedAtIsFirst(shows, k + 1, s);
    }
    if HoldsSlot(shows, slots, s) {
      var rank :| 1 <= rank <= slots && FirstPinned(shows, rank, s);
      PinnedAtIsFirst(shows, rank, s);
      assert pins[rank - 1] == Some(s);
    }
  }

  lemma EnoughForOpenSlots(shows: seq<Show>, slots: nat)
    requires DistinctSlugs(shows)
    ensures var pins := Pins(shows, slots);
            var auto := ByDemand(shows, Claimed(pins));
            |auto| == |shows| - (slots - Open(pins)) && Open(pins) <= slots
  {
    var pins := Pins(shows, slots);
    PinsDistinct(shows, slots);
    ClaimedCount(pins);
    UnclaimedCount(shows, Claimed(pins));
    FillLength(pins, []);
  }

  /** As many shows as there are, or as there are slots, each at most once. */
  lemma RankIsComplete(shows: seq<Show>, slots: nat)
    requires DistinctSlugs(shows)
    ensures |Rank(shows, slots)| == Smaller(|shows|, slots)
    ensures DistinctSlugs(Rank(shows, slots)) && forall s :: s in Rank(shows, slots) ==> s in shows
  {
    hide Fill, Shown, ByDemand, Claimed, Open, Smaller;
    var pins := Pins(shows, slots);
    var auto := ByDemand(shows, Claimed(pins));
    PinsDistinct(shows, slots);
    ByDemandFacts(shows, Claimed(pins));
    EnoughForOpenSlots(shows, slots);
    FillLength(pins, auto);
    SmallerTold(Open(pins), |auto|);
    SmallerTold(|shows|, slots);
    forall i, j | 0 <= i < |pins| && 0 <= j < |auto| && pins[i].Some? ensures pins[i].value.slug != auto[j].slug {
      ClaimedHas(pins, i);
      assert auto[j] in auto;
    }
    ShownDistinct(pins, auto);
    forall s | s in Rank(shows, slots) ensures s in shows {
      ShownMembers(pins, auto, s);
      if Some(s) in pins {
        var k :| 0 <= k < |pins| && pins[k] == Some(s);
        assert pins[k] == PinnedAt(shows, k + 1);
      }
    }
  }

  lemma SmallerTold(a: nat, b: nat)
    ensures Smaller(a, b) == if a < b then a else b
  {
  }

  lemma ClaimedHas(pins: seq<Option<Show>>, i: nat)
    requires i < |pins| && pins[i].Some?
    ensures pins[i].value.slug in Claimed(pins)
  {
  }

  /** With enough shows, the first show pinned to a slot sits exactly there. */
  lemma PinnedShowsSitInTheirSlots(shows: seq<Show>, slots: nat, rank: int, s: Show)
    requires DistinctSlugs(shows) && |shows| >= slots && 1 <= rank <= slots && FirstPinned(shows, rank, s)
    ensures rank <= |Rank(shows, slots)| && Rank(shows, slots)[rank - 1] == s
  {
    var pins := Pins(shows, slots);
    PinnedAtIsFirst(shows, rank, s);
    EnoughForOpenSlots(shows, slots);
    assert pins[rank - 1] == Some(s);
    FullSlotsStay(pins, ByDemand(shows, Claimed(pins)), rank - 1);
  }

  lemma FreeIsFront(shows: seq<Show>, slots: nat)
    requires DistinctSlugs(shows)
    ensures var pins := Pins(shows, slots);
            var auto := ByDemand(shows, Claimed(pins));
            Free(Rank(shows, slots), Claimed(pins)) == auto[..Smaller(Open(pins), |auto|)]
  {
    var pins := Pins(shows, slots);
    var auto := ByDemand(shows, Claimed(pins));
    ByDemandFacts(shows, Claimed(pins));
    assert forall k :: 0 <= k < |auto| ==> auto[k] in auto;
    DemandInOrder(pins, auto, Claimed(pins));
  }

  /** The shows placed by demand appear in order of demand. */
  lemma DemandDecides(shows: seq<Show>, slots: nat, i: nat, j: nat)
    requires DistinctSlugs(shows) && i < j < |Rank(shows, slots)|
    requires !HoldsSlot(shows, slots, Rank(shows, slots)[i]) && !HoldsSlot(shows, slots, Rank(shows, slots)[j])
    ensures Rank(shows, slots)[i].soldCount >= Rank(shows, slots)[j].soldCount
  {
    var r, claimed := Rank(shows, slots), Claimed(Pins(shows, slots));
    RankIsComplete(shows, slots);
    assert r[i] in r && r[j] in r;
    ClaimedMeansPinned(shows, slots, r[i]);
    ClaimedMeansPinned(shows, slots, r[j]);
    FreeIsFront(shows, slots);
    ByDemandFacts(shows, claimed);
    hide Rank, HoldsSlot;
    FreeOrder(r, claimed, i, j);
  }

  /** And of two that sold equally well the one that stands first in the list comes first. */
  lemma TiesKeepTheirOrder(shows: seq<Show>, slots: nat, a: nat, b: nat, i: nat, j: nat)
    requires DistinctSlugs(shows) && i < j < |Rank(shows, slots)| && a < |shows| && b < |shows|
    requires shows[a] == Rank(shows, slots)[i] && shows[b] == Rank(shows, slots)[j] && shows[a].soldCount == shows[b].soldCount
    requires !HoldsSlot(shows, slots, shows[a]) && !HoldsSlot(shows, slots, shows[b])
    ensures a < b
  {
    var r, claimed := Rank(shows, slots), Claimed(Pins(shows, slots));
    ClaimedMeansPinned(shows, slots, shows[a]);
    ClaimedMeansPinned(shows, slots, shows[b]);
    FreeIsFront(shows, slots);
    hide Rank, HoldsSlot, ByDemand, Claimed, Pins;
    var k, l := FreePlaces(r, claimed, i, j);
    DemandPlaces(shows, claimed, k, l, a, b);
  }

  lemma DemandPlaces(shows: seq<Show>, claimed: set<string>, k: nat, l: nat, a: nat, b: nat)
    requires DistinctSlugs(shows) && k < l < |ByDemand(shows, claimed)| && a < |shows| && b < |shows|
    requires ByDemand(shows, claimed)[k] == shows[a] && ByDemand(shows, claimed)[l] == shows[b] && shows[a].soldCount == shows[b].soldCount
    ensures a < b
  {
    var ids := Sort(Unclaimed(shows, claimed), Demand(shows));
    SortOrders(Unclaimed(shows, claimed), Demand(shows));
    hide Sort, Unclaimed;
    assert ids[k] in ids && ids[l] in ids && Before(Demand(shows), ids[k], ids[l]);
  }

  /** No show that is left out outsells one that was placed by demand, and no show that holds a slot is left out. */
  lemma NobodyIsOverlooked(shows: seq<Show>, slots: nat, left: Show, placed: Show)
    requires DistinctSlugs(shows) && left in shows && left !in Rank(shows, slots)
    requires placed in Rank(shows, slots) && !HoldsSlot(shows, slots, placed)
    ensures !HoldsSlot(shows, slots, left) && left.soldCount <= placed.soldCount
  {
    hide HoldsSlot, DistinctSlugs, ByDemand, Claimed, Free;
    var r, pins := Rank(shows, slots), Pins(shows, slots);
    var claimed := Claimed(pins);
    var auto := ByDemand(shows, claimed);
    var k := Smaller(Open(pins), |auto|);
    RankIsComplete(shows, slots);
    ClaimedMeansPinned(shows, slots, left);
    ClaimedMeansPinned(shows, slots, placed);
    ShownMembers(pins, auto, left);
    FreeIsFront(shows, slots);
    ByDemandFacts(shows, claimed);
    FreeMembers(r, claimed, placed);
    FreeMembers(r, claimed, left);
    FrontOutsells(auto, k, left, placed);
  }

  lemma FrontOutsells(auto: seq<Show>, k: nat, left: Show, placed: Show)
    requires k <= |auto| && forall i, j :: 0 <= i < j < |auto| ==> auto[i].soldCount >= auto[j].soldCount
    requires placed in auto[..k] && left in auto && left !in auto[..k]
    ensures left.soldCount <= placed.soldCount
  {
    var a :| 0 <= a < k && auto[..k][a] == placed;
    var b :| 0 <= b < |auto| && auto[b] == left;
    assert forall x :: 0 <= x < k ==> auto[x] == auto[..k][x] && auto[..k][x] in auto[..k];
  }

  lemma PinnedNext(shows: seq<Show>, i: nat)
    requires i < |shows|
    ensures forall rank: int :: PinnedAt(shows[..i + 1], rank)
                                == if PinnedAt(shows[..i], rank).Some? then PinnedAt(shows[..i], rank)
                                   else if shows[i].pinnedRank == Some(rank) then Some(shows[i]) else None
  {
    assert shows[..i + 1][..i] == shows[..i] && shows[..i + 1][i] == shows[i];
  }

  lemma NothingPinned(shows: seq<Show>, pins: seq<Option<Show>>)
    requires forall k :: 0 <= k < |pins| ==> pins[k].None?
    ensures (forall rank: int :: PinnedAt(shows[..0], rank) == None) && Claimed(pins) == {}
  {
  }

  /** The first loop of `rankShows`: each pinned show takes its slot unless an earlier one has it. */
  method PlacePinned(shows: seq<Show>, bySlot: array<Option<Show>>) returns (claimed: set<string>)
    requires forall k :: 0 <= k < bySlot.Length ==> bySlot[k].None?
    modifies bySlot
    ensures bySlot[..] == Pins(shows, bySlot.Length) && claimed == Claimed(bySlot[..])
  {
    hide PinnedAt, Claimed;
    claimed := {};
    NothingPinned(shows, bySlot[..]);
    for i := 0 to |shows|
      invariant forall k :: 0 <= k < bySlot.Length ==> bySlot[k] == PinnedAt(shows[..i], k + 1)
      invariant claimed == Claimed(bySlot[..])
    {
      PinnedNext(shows, i);
      var show := shows[i];
      if show.pinnedRank.None? || show.pinnedRank.value < 1 || show.pinnedRank.value > bySlot.Length { continue; }
      var index := show.pinnedRank.value - 1;
      if bySlot[index].Some? { continue; }
      ghost var before := bySlot[..];
      bySlot[index] := Some(show);
      ClaimOne(before, index, show);
      assert bySlot[..] == before[index := Some(show)];
      claimed := claimed + {show.slug};
    }
    assert shows[..|shows|] == shows;
  }

  function From(auto: seq<Show>, n: nat): seq<Show> {
    if n < |auto| then auto[n..] else []
  }

  /** One round of filling: what is in front of the slots still to fill grows by one. */
  lemma FillRound(pins: seq<Option<Show>>, auto: seq<Show>, done: seq<Option<Show>>, index: nat, taken: nat)
    requires index < |pins| && Fill(pins, auto) == done + Fill(pins[index..], From(auto, taken))
    ensures var next := if taken < |auto| then Some(auto[taken]) else None;
            Fill(pins, auto) == if pins[index].Some? then (done + [pins[index]]) + Fill(pins[index + 1..], From(auto, taken))
                                else (done + [next]) + Fill(pins[index + 1..], From(auto, taken + 1))
  {
    assert pins[index..][1..] == pins[index + 1..] && pins[index..][0] == pins[index];
    if taken < |auto| { assert auto[taken..][1..] == auto[taken + 1..]; }
  }

  lemma FillEnds(pins: seq<Option<Show>>, auto: seq<Show>)
    ensures From(auto, 0) == auto && pins[0..] == pins && forall taken :: Fill(pins[|pins|..], From(auto, taken)) == []
  {
  }

  /** Its second loop: the open slots take the shows in demand order until those run out. */
  method FillOpenSlots(bySlot: array<Option<Show>>, auto: seq<Show>)
    modifies bySlot
    ensures bySlot[..] == Fill(old(bySlot[..]), auto)
  {
    hide Fill, From;
    ghost var pins := bySlot[..];
    var autoIndex := 0;
    FillEnds(pins, auto);
    for index := 0 to bySlot.Length
      invariant forall k :: index <= k < bySlot.Length ==> bySlot[k] == pins[k]
      invariant Fill(pins, auto) == bySlot[..index] + Fill(pins[index..], From(auto, autoIndex))
    {
      ghost var done := bySlot[..index];
      FillRound(pins, auto, done, index, autoIndex);
      if bySlot[index].None? {
        bySlot[index] := if autoIndex < |auto| then Some(auto[autoIndex]) else None;
        autoIndex := autoIndex + 1;
      }
      assert bySlot[..index + 1] == done + [bySlot[index]];
    }
    assert bySlot[..] == bySlot[..bySlot.Length];
  }

  /** `rankShows`, over the slot array it fills. */
  method RankShows(shows: seq<Show>, slots: nat) returns (ranked: seq<Show>)
    ensures ranked == Rank(shows, slots)
  {
    var bySlot := new Option<Show>[slots](_ => None);
    var claimed := PlacePinned(shows, bySlot);
    FillOpenSlots(bySlot, ByDemand(shows, claimed));
    ranked := Shown(bySlot[..]);
  }

  lemma ClaimOne(pins: seq<Option<Show>>, index: nat, show: Show)
    requires index < |pins| && pins[index].None?
    ensures Claimed(pins[index := Some(show)]) == Claimed(pins) + {show.slug}
  {
    var after := pins[index := Some(show)];
    forall c ensures c in Claimed(after) <==> c in Claimed(pins) || c == show.slug {
      if c in Claimed(pins) {
        var k :| 0 <= k < |pins| && pins[k].Some? && pins[k].value.slug == c;
        assert after[k] == pins[k];
      }
      if c == show.slug { assert after[index].Some? && after[index].value.slug == c; }
    }
  }
}
