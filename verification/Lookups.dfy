/** Point lookups on one layer's subject index, without an iterator. */
module Lookups {
  import opened Sorting
  import opened Triples
  import opened AdjacencyLists
  import opened TripleIndexes
  import opened SubjectIterators

  /** Sp position `j` is the pair `(s, p)`. */
  predicate IsPair(x: TripleIndex, j: nat, s: nat, p: nat)
    requires x.Shape()
  {
    j < |x.sp.nums| && x.SubjectAt(j) == s && x.sp.nums[j] == p
  }

  lemma PairIsUnique(x: TripleIndex, i: nat, j: nat, s: nat, p: nat)
    requires x.Coherent() && IsPair(x, i, s, p) && IsPair(x, j, s, p)
    ensures i == j
  {
    if i < j {
      LaterSubject(x, i, j);
    } else if j < i {
      LaterSubject(x, j, i);
    }
  }

  /** The triples of a pair are the entries of its group. */
  lemma PairEntries(x: TripleIndex, j: nat, s: nat, p: nat, o: nat)
    requires x.Coherent() && IsPair(x, j, s, p) && p > 0
    ensures Triple(s, p, o) in x.Listing() <==>
      exists k :: 0 <= k < |x.spo.nums| && x.SpAt(k) == j && x.spo.nums[k] == o
  {
    hide StubsAlone, GroupsAscend, TripleIndex.SubjectsAscend, Rank, TripleIndex.Upto;
    UptoElements(x, |x.spo.nums|, Triple(s, p, o));
    if Triple(s, p, o) in x.Listing() {
      var k :| 0 <= k < |x.spo.nums| && x.spo.nums[k] != 0 && x.TripleAt(k) == Triple(s, p, o);
      PairIsUnique(x, x.SpAt(k), j, s, p);
    }
    if k :| 0 <= k < |x.spo.nums| && x.SpAt(k) == j && x.spo.nums[k] == o {
      assert x.TripleAt(k) == Triple(s, p, o);
    }
  }

  /** A pair that is nowhere in the sp list has no triples. */
  lemma NoPair(x: TripleIndex, s: nat, p: nat, t: Triple)
    requires x.Coherent() && InPair(s, p, t)
    requires s == 0 || p == 0 || forall j :: 0 <= j < |x.sp.nums| ==> !IsPair(x, j, s, p)
    ensures t !in x.Listing()
  {
    if t in x.Listing() {
      ListingIncreases(x);
      var i :| 0 <= i < |x.Listing()| && x.Listing()[i] == t;
      UptoElements(x, |x.spo.nums|, t);
      var k :| 0 <= k < |x.spo.nums| && x.spo.nums[k] != 0 && x.TripleAt(k) == t;
      assert IsPair(x, x.SpAt(k), s, p);
    }
  }

  /** The start of the group of `(s, p)` in the object list, if the layer has that pair. */
  method SpoPosition(x: TripleIndex, s: nat, p: nat) returns (r: Option<nat>)
    requires x.Coherent()
    ensures r.None? ==> s == 0 || p == 0 || forall j :: 0 <= j < |x.sp.nums| ==> !IsPair(x, j, s, p)
    ensures r.Some? ==> s > 0 && p > 0 && exists j: nat :: IsPair(x, j, s, p) && r.value == x.spo.OffsetFor(j + 1)
  {
    hide StubsAlone, GroupsAscend, TripleIndex.StubsMatch, Rank;
    if s == 0 || p == 0 {
      return None;
    }
    var sPos;
    match x.subjects {
      case None =>
        if s > x.sp.LeftCount() {
          AbsentSubject(x, s, p);
          return None;
        }
        sPos := s - 1;
      case Some(list) =>
        var index := IndexOf(list, s);
        if index.None? {
          AbsentSubject(x, s, p);
          return None;
        }
        sPos := index.value;
    }
    var spPos := x.sp.OffsetFor(sPos + 1);
    ghost var start := spPos;
    GroupNonempty(x.sp, sPos);
    while true
      invariant start <= spPos < |x.sp.nums| && Rank(x.sp.bits, spPos) == sPos == Rank(x.sp.bits, start)
      invariant forall j :: start <= j < spPos ==> x.sp.nums[j] != p
      decreases |x.sp.nums| - spPos
    {
      var bit := x.sp.BitAt(spPos);
      if x.sp.NumAt(spPos) == p {
        break;
      }
      if bit {
        ScannedGroup(x, s, p, start, spPos);
        return None;
      }
      RankNext(x.sp.bits, spPos);
      spPos := spPos + 1;
    }
    r := Some(x.spo.OffsetFor(spPos + 1));
    assert IsPair(x, spPos, s, p);
  }

  lemma AbsentSubject(x: TripleIndex, s: nat, p: nat)
    requires x.Coherent() && s > 0
    requires match x.subjects case None => s > x.sp.LeftCount() case Some(list) => IndexOf(list, s).None?
    ensures forall j :: 0 <= j < |x.sp.nums| ==> !IsPair(x, j, s, p)
  {
    forall j | 0 <= j < |x.sp.nums| ensures x.SubjectAt(j) != s {
      LeftInRange(x.sp, j);
    }
  }

  /** A group scanned to its closing bit without meeting `p`: the pair is not in the list. */
  lemma ScannedGroup(x: TripleIndex, s: nat, p: nat, start: nat, last: nat)
    requires x.Coherent() && start <= last < |x.sp.nums| && x.sp.bits[last] && x.sp.StartsGroup(start)
    requires x.SubjectAt(start) == s && Rank(x.sp.bits, start) == Rank(x.sp.bits, last)
    requires forall j :: start <= j <= last ==> x.sp.nums[j] != p
    ensures forall j :: 0 <= j < |x.sp.nums| ==> !IsPair(x, j, s, p)
  {
    forall j | 0 <= j < |x.sp.nums| && x.SubjectAt(j) == s ensures start <= j <= last {
      if j < start {
        RankMonotone(x.sp.bits, j, start);
        LaterSubject(x, j, start);
      } else if j > last {
        RankMonotone(x.sp.bits, last + 1, j);
        RankNext(x.sp.bits, last);
        LaterSubject(x, last, j);
      }
    }
  }

  /** The objects of one group, from position `k` to its closing bit. */
  function GroupObjects(a: AdjacencyList, k: nat): set<nat>
    requires a.Valid() && k < |a.nums|
    decreases |a.nums| - k
  {
    if a.bits[k] then {a.nums[k]} else {a.nums[k]} + GroupObjects(a, k + 1)
  }

  lemma {:induction false} GroupObjectsAre(a: AdjacencyList, k: nat, o: nat)
    requires a.Valid() && k < |a.nums|
    ensures o in GroupObjects(a, k) <==>
      exists m :: k <= m < |a.nums| && Rank(a.bits, m) == Rank(a.bits, k) && a.nums[m] == o
    decreases |a.nums| - k
  {
    if !a.bits[k] {
      GroupObjectsAre(a, k + 1, o);
      RankNext(a.bits, k);
    } else {
      RankNext(a.bits, k);
      forall m | k < m < |a.nums| ensures Rank(a.bits, m) != Rank(a.bits, k) {
        RankMonotone(a.bits, k + 1, m);
      }
    }
  }

  /** The objects a layer lists for a pair. */
  ghost function PairObjects(x: TripleIndex, s: nat, p: nat): set<nat>
    requires x.Shape()
  {
    set t | t in x.Listing() && InPair(s, p, t) :: t.o
  }

  lemma PairObjectsAre(x: TripleIndex, s: nat, p: nat, o: nat)
    requires x.Shape()
    ensures o in PairObjects(x, s, p) <==> Triple(s, p, o) in x.Listing()
  {
    if o in PairObjects(x, s, p) {
      var t :| t in x.Listing() && InPair(s, p, t) && t.o == o;
      assert t == Triple(s, p, o);
    }
    if Triple(s, p, o) in x.Listing() {
      assert InPair(s, p, Triple(s, p, o));
    }
  }

  /** A found position starts the objects of its pair; without one there are none. */
  lemma GroupIsPair(x: TripleIndex, s: nat, p: nat, r: Option<nat>)
    requires x.Coherent()
    requires r.None? ==> s == 0 || p == 0 || forall j :: 0 <= j < |x.sp.nums| ==> !IsPair(x, j, s, p)
    requires r.Some? ==> s > 0 && p > 0 && exists j: nat :: IsPair(x, j, s, p) && r.value == x.spo.OffsetFor(j + 1)
    ensures r.None? ==> PairObjects(x, s, p) == {}
    ensures r.Some? ==> r.value < |x.spo.nums| && PairObjects(x, s, p) == GroupObjects(x.spo, r.value)
  {
    hide StubsAlone, GroupsAscend, TripleIndex.StubsMatch, TripleIndex.SubjectsAscend, TripleIndex.Listing, Rank;
    if r.None? {
      forall t | InPair(s, p, t) ensures t !in x.Listing() {
        NoPair(x, s, p, t);
      }
    } else {
      var j: nat :| IsPair(x, j, s, p) && r.value == x.spo.OffsetFor(j + 1);
      GroupNonempty(x.spo, j);
      forall o ensures o in PairObjects(x, s, p) <==> o in GroupObjects(x.spo, r.value) {
        PairObjectsAre(x, s, p, o);
        PairEntries(x, j, s, p, o);
        GroupObjectsAre(x.spo, r.value, o);
        if o in PairObjects(x, s, p) {
          var k :| 0 <= k < |x.spo.nums| && x.SpAt(k) == j && x.spo.nums[k] == o;
          CutAtPair(x, j, k);
          assert r.value <= k && Rank(x.spo.bits, k) == Rank(x.spo.bits, r.value);
        }
        if o in GroupObjects(x.spo, r.value) {
          var k :| r.value <= k < |x.spo.nums| && Rank(x.spo.bits, k) == Rank(x.spo.bits, r.value) &&
            x.spo.nums[k] == o;
          assert x.SpAt(k) == j;
        }
      }
    }
  }

  /** A layer index answers exactly for the triples it lists. */
  method LayerTripleExists(x: TripleIndex, s: nat, p: nat, o: nat) returns (found: bool)
    requires x.Coherent()
    ensures found <==> Triple(s, p, o) in x.Listing()
  {
    hide TripleIndex.Coherent, TripleIndex.Listing, Rank;
    CoherentShape(x);
    if o == 0 {
      ZeroIsAbsent(x, s, p);
      return false;
    }
    var r := SpoPosition(x, s, p);
    GroupIsPair(x, s, p, r);
    PairObjectsAre(x, s, p, o);
    if r.None? {
      return false;
    }
    var pos := r.value;
    while true
      invariant pos < |x.spo.nums|
      invariant o in PairObjects(x, s, p) <==> o in GroupObjects(x.spo, pos)
      decreases |x.spo.nums| - pos
    {
      var bit := x.spo.BitAt(pos);
      if x.spo.NumAt(pos) == o {
        return true;
      }
      if bit {
        return false;
      }
      pos := pos + 1;
    }
  }

  lemma ZeroIsAbsent(x: TripleIndex, s: nat, p: nat)
    requires x.Coherent()
    ensures Triple(s, p, 0) !in x.Listing()
  {
    ListingIncreases(x);
  }

  /** Adds every object of the pair to `exclude`. */
  method CollectObjects(x: TripleIndex, s: nat, p: nat, exclude: set<nat>) returns (r: set<nat>)
    requires x.Coherent()
    ensures r == exclude + PairObjects(x, s, p)
  {
    hide TripleIndex.Coherent, Rank, PairObjects;
    CoherentShape(x);
    r := exclude;
    var start := SpoPosition(x, s, p);
    GroupIsPair(x, s, p, start);
    if start.Some? {
      var pos := start.value;
      while true
        invariant pos < |x.spo.nums| && r + GroupObjects(x.spo, pos) == exclude + PairObjects(x, s, p)
        decreases |x.spo.nums| - pos
      {
        r := r + {x.spo.NumAt(pos)};
        if x.spo.BitAt(pos) {
          break;
        }
        pos := pos + 1;
      }
    }
  }

  /** In a group the numbers ascend from any position on. */
  lemma GroupAbove(a: AdjacencyList, k: nat, o: nat)
    requires a.Valid() && GroupsAscend(a) && k < |a.nums| && o in GroupObjects(a, k)
    ensures a.nums[k] <= o
  {
    hide Rank;
    GroupObjectsAre(a, k, o);
    var m :| k <= m < |a.nums| && Rank(a.bits, m) == Rank(a.bits, k) && a.nums[m] == o;
  }

  lemma ObjectsAscend(x: TripleIndex)
    requires x.Coherent()
    ensures GroupsAscend(x.spo)
  {
  }

  /** The least object of the pair that is not excluded. */
  method FirstObjectNotIn(x: TripleIndex, s: nat, p: nat, exclude: set<nat>) returns (r: Option<nat>)
    requires x.Coherent()
    ensures r.Some? ==> r.value in PairObjects(x, s, p) - exclude
    ensures r.Some? ==> forall o :: o in PairObjects(x, s, p) - exclude ==> r.value <= o
    ensures r.None? ==> PairObjects(x, s, p) <= exclude
  {
    hide TripleIndex.Coherent, Rank, PairObjects, GroupsAscend, TripleIndex.Listing;
    CoherentShape(x);
    var start := SpoPosition(x, s, p);
    GroupIsPair(x, s, p, start);
    if start.Some? {
      var pos := start.value;
      ghost var seen := {};
      while true
        invariant pos < |x.spo.nums| && seen <= exclude
        invariant seen + GroupObjects(x.spo, pos) == PairObjects(x, s, p)
        decreases |x.spo.nums| - pos
      {
        var num := x.spo.NumAt(pos);
        if num !in exclude {
          ObjectsAscend(x);
          forall o | o in PairObjects(x, s, p) - exclude ensures num <= o {
            GroupAbove(x.spo, pos, o);
          }
          return Some(num);
        }
        if x.spo.BitAt(pos) {
          break;
        }
        seen := seen + {num};
        pos := pos + 1;
      }
    }
    return None;
  }
}
