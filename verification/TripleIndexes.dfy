/** The subject index of one layer: subjects to predicates to objects as two adjacency lists,
    dense (one group per subject id, stubs for unused ids) or sparse (with a subject list). */
module TripleIndexes {
  import opened Sorting
  import opened Triples
  import opened AdjacencyLists

  datatype TripleIndex = TripleIndex(subjects: Option<seq<nat>>, sp: AdjacencyList, spo: AdjacencyList) {

    /** The lists fit together: one spo group per sp entry, one sp group per listed subject. */
    ghost predicate Shape() {
      && sp.Valid() && spo.Valid()
      && spo.LeftCount() == sp.RightCount()
      && (subjects.Some? ==> |subjects.value| == sp.LeftCount())
    }

    /** The sp position that spo position `k` belongs to. */
    function SpAt(k: nat): (j: nat)
      requires Shape() && k < |spo.nums|
      ensures j < |sp.nums|
    {
      LeftInRange(spo, k);
      Rank(spo.bits, k)
    }

    /** The subject of sp position `j`. */
    function SubjectAt(j: nat): nat
      requires Shape() && j < |sp.nums|
    {
      LeftInRange(sp, j);
      match subjects
      case Some(list) => list[Rank(sp.bits, j)]
      case None => Rank(sp.bits, j) + 1
    }

    function TripleAt(k: nat): Triple
      requires Shape() && k < |spo.nums|
    {
      Triple(SubjectAt(SpAt(k)), sp.nums[SpAt(k)], spo.nums[k])
    }

    /** The triples stored before position `k`; stubs store none. */
    function Upto(k: nat): seq<Triple>
      requires Shape() && k <= |spo.nums|
    {
      if k == 0 then [] else Upto(k - 1) + (if spo.nums[k - 1] == 0 then [] else [TripleAt(k - 1)])
    }

    /** The triples stored at position `k` and later. */
    function From(k: nat): seq<Triple>
      requires Shape() && k <= |spo.nums|
      decreases |spo.nums| - k
    {
      if k == |spo.nums| then [] else (if spo.nums[k] == 0 then [] else [TripleAt(k)]) + From(k + 1)
    }

    /** The triples this index stores, in order. */
    function Listing(): seq<Triple>
      requires Shape()
    {
      Upto(|spo.nums|)
    }

    ghost predicate SubjectsAscend() {
      subjects.Some? ==>
        && (forall i :: 0 <= i < |subjects.value| ==> subjects.value[i] > 0)
        && (forall i, j :: 0 <= i < j < |subjects.value| ==> subjects.value[i] < subjects.value[j])
        && (forall j :: 0 <= j < |sp.nums| ==> sp.nums[j] != 0)
    }

    /** An spo entry is a stub exactly when its sp entry is. */
    ghost predicate StubsMatch()
      requires Shape()
    {
      forall k :: 0 <= k < |spo.nums| ==> (spo.nums[k] == 0 <==> sp.nums[SpAt(k)] == 0)
    }

    ghost predicate Coherent() {
      && Shape() && SubjectsAscend() && StubsMatch()
      && StubsAlone(sp) && StubsAlone(spo) && GroupsAscend(sp) && GroupsAscend(spo)
      && NoTrailingStub(sp)
    }
  }

  /** Stubs only fill gaps: the last entry is real. */
  predicate NoTrailingStub(a: AdjacencyList) {
    a.nums != [] ==> a.nums[|a.nums| - 1] != 0
  }

  lemma CoherentShape(x: TripleIndex)
    requires x.Coherent()
    ensures x.Shape() && x.SubjectsAscend()
  {
  }

  /** A stub is the only entry of its group. */
  ghost predicate StubsAlone(a: AdjacencyList)
    requires a.Valid()
  {
    forall i {:trigger a.nums[i]} :: 0 <= i < |a.nums| && a.nums[i] == 0 ==> a.bits[i] && a.StartsGroup(i)
  }

  /** Within a group the numbers increase. */
  ghost predicate GroupsAscend(a: AdjacencyList)
    requires a.Valid()
  {
    forall i, j {:trigger Rank(a.bits, i), Rank(a.bits, j)} ::
      0 <= i < j < |a.nums| && Rank(a.bits, i) == Rank(a.bits, j) ==> a.nums[i] < a.nums[j]
  }

  /** Later positions store greater triples. */
  lemma PositionsAscend(x: TripleIndex, k: nat, m: nat)
    requires x.Coherent() && k < m < |x.spo.nums|
    requires x.spo.nums[k] != 0 && x.spo.nums[m] != 0
    ensures Before(BySubject, x.TripleAt(k), x.TripleAt(m))
  {
    RankMonotone(x.spo.bits, k, m);
    var i, j := x.SpAt(k), x.SpAt(m);
    if i != j {
      RankMonotone(x.sp.bits, i, j);
      LeftInRange(x.sp, j);
    }
  }

  lemma {:induction false} UptoElements(x: TripleIndex, k: nat, t: Triple)
    requires x.Shape() && k <= |x.spo.nums|
    ensures t in x.Upto(k) <==> exists i :: 0 <= i < k && x.spo.nums[i] != 0 && x.TripleAt(i) == t
  {
    if k > 0 {
      UptoElements(x, k - 1, t);
    }
  }

  lemma {:induction false} FromElements(x: TripleIndex, k: nat, t: Triple)
    requires x.Shape() && k <= |x.spo.nums|
    ensures t in x.From(k) <==> exists i :: k <= i < |x.spo.nums| && x.spo.nums[i] != 0 && x.TripleAt(i) == t
    decreases |x.spo.nums| - k
  {
    if k < |x.spo.nums| {
      FromElements(x, k + 1, t);
    }
  }

  lemma {:induction false} UptoIncreases(x: TripleIndex, k: nat)
    requires x.Coherent() && k <= |x.spo.nums|
    ensures Increasing(BySubject, x.Upto(k)) && AllReal(x.Upto(k))
  {
    if k > 0 {
      UptoIncreases(x, k - 1);
      if x.spo.nums[k - 1] != 0 {
        var rest := x.Upto(k - 1);
        forall i | 0 <= i < |rest| ensures Before(BySubject, rest[i], x.TripleAt(k - 1)) {
          UptoElements(x, k - 1, rest[i]);
          var m :| 0 <= m < k - 1 && x.spo.nums[m] != 0 && x.TripleAt(m) == rest[i];
          PositionsAscend(x, m, k - 1);
        }
        RealAt(x, k - 1);
        IncreasingAppend(BySubject, rest, x.TripleAt(k - 1));
      }
    }
  }

  lemma RealAt(x: TripleIndex, k: nat)
    requires x.Coherent() && k < |x.spo.nums| && x.spo.nums[k] != 0
    ensures x.TripleAt(k).IsReal()
  {
    LeftInRange(x.sp, x.SpAt(k));
  }

  /** The listing of a coherent index is strictly increasing and free of zeros. */
  lemma ListingIncreases(x: TripleIndex)
    requires x.Coherent()
    ensures Increasing(BySubject, x.Listing()) && AllReal(x.Listing())
  {
    UptoIncreases(x, |x.spo.nums|);
  }

  /** Any position splits the listing in two. */
  lemma {:induction false} SplitAt(x: TripleIndex, k: nat)
    requires x.Shape() && k <= |x.spo.nums|
    ensures x.Upto(k) + x.From(k) == x.Listing()
    decreases |x.spo.nums| - k
  {
    if k < |x.spo.nums| {
      SplitAt(x, k + 1);
      assert x.Upto(k) + x.From(k) == x.Upto(k + 1) + x.From(k + 1);
    }
  }

  lemma {:induction false} UptoPrefix(x: TripleIndex, y: TripleIndex, k: nat)
    requires x.Shape() && y.Shape() && k <= |x.spo.nums| && k <= |y.spo.nums|
    requires forall i :: 0 <= i < k ==> x.spo.nums[i] == y.spo.nums[i]
    requires forall i :: 0 <= i < k ==> x.TripleAt(i) == y.TripleAt(i)
    ensures x.Upto(k) == y.Upto(k)
  {
    if k > 0 {
      UptoPrefix(x, y, k - 1);
    }
  }

  lemma {:induction false} UptoOverStubs(x: TripleIndex, k: nat, n: nat)
    requires x.Shape() && k + n <= |x.spo.nums|
    requires forall i :: k <= i < k + n ==> x.spo.nums[i] == 0
    ensures x.Upto(k + n) == x.Upto(k)
  {
    if n > 0 {
      UptoOverStubs(x, k, n - 1);
    }
  }

  /* ---- appending one triple ---- */

  /** What a push does to the ranks: old positions keep theirs, the new entry closes the last. */
  lemma PushedRanks(a: AdjacencyList, lastLeft: nat, left: nat, right: nat)
    requires a.Valid() && a.LeftCount() == lastLeft <= left && right > 0
    requires left == lastLeft ==> a.nums != []
    ensures var r := Pushed(a, lastLeft, left, right); var n := |a.nums|;
      && (forall i {:trigger Rank(r.bits, i)} {:trigger Rank(a.bits, i)} :: 0 <= i < n ==>
        Rank(r.bits, i) == Rank(a.bits, i))
      && (left > lastLeft ==> forall i {:trigger Rank(r.bits, i)} :: n <= i <= |r.nums| ==>
        Rank(r.bits, i) == lastLeft + (i - n))
      && Rank(r.bits, |r.nums| - 1) == left - 1
  {
    var r := Pushed(a, lastLeft, left, right);
    var n := |a.nums|;
    forall i | 0 <= i < n ensures Rank(r.bits, i) == Rank(a.bits, i) {
      RankPrefix(a.bits, r.bits, i);
    }
    if left > lastLeft {
      RankPrefix(a.bits, r.bits, n);
      forall i | n <= i <= |r.nums| ensures Rank(r.bits, i) == lastLeft + (i - n) {
        RankOverTrues(r.bits, n, i - n);
      }
    } else {
      PushedLeftCount(a, lastLeft, left, right);
    }
  }

  /** Pushing in order keeps every group ascending and every stub alone. */
  lemma PushedKeepsGroups(a: AdjacencyList, lastLeft: nat, left: nat, right: nat)
    requires a.Valid() && StubsAlone(a) && GroupsAscend(a) && a.LeftCount() == lastLeft <= left && right > 0
    requires left == lastLeft ==> a.nums != [] && 0 < a.nums[|a.nums| - 1] < right
    ensures StubsAlone(Pushed(a, lastLeft, left, right)) && GroupsAscend(Pushed(a, lastLeft, left, right))
  {
    var r := Pushed(a, lastLeft, left, right);
    var n := |a.nums|;
    forall i | 0 <= i < |r.nums| && r.nums[i] == 0 ensures r.bits[i] && r.StartsGroup(i) {
      if i < n {
        assert a.nums[i] == 0;
      }
    }
    PushedRanks(a, lastLeft, left, right);
    forall i, j | 0 <= i < j < |r.nums| && Rank(r.bits, i) == Rank(r.bits, j) ensures r.nums[i] < r.nums[j] {
      if i < n {
        RankMonotone(a.bits, i, n);
        if j >= n {
          assert Rank(a.bits, n) == lastLeft;
          RankMonotone(a.bits, n - 1, n);
          RankMonotone(a.bits, i, n - 1);
        }
      }
    }
  }

  /** `y` is `x` after one push: its sp list is the same or got one new entry, and its spo
      list got an object for the last sp entry. */
  ghost predicate Appended(x: TripleIndex, y: TripleIndex, left: nat, p: nat, o: nat) {
    && x.Coherent() && p > 0 && o > 0
    && var lastLeft := x.sp.LeftCount();
       var m := |x.sp.nums|;
       && lastLeft <= left
       && (y.sp == x.sp || ((left == lastLeft ==> m > 0 && 0 < x.sp.nums[m - 1] < p) &&
         y.sp == Pushed(x.sp, lastLeft, left, p)))
       && (y.sp == x.sp ==>
         x.spo.nums != [] && left == lastLeft && m > 0 && x.sp.nums[m - 1] == p &&
         0 < x.spo.nums[|x.spo.nums| - 1] < o)
       && y.spo == Pushed(x.spo, m, |y.sp.nums|, o)
       && (left == lastLeft ==> y.subjects == x.subjects)
       && (left > lastLeft ==> SubjectAdded(x.subjects, y.subjects, lastLeft, left))
  }

  ghost predicate SubjectAdded(xs: Option<seq<nat>>, ys: Option<seq<nat>>, lastLeft: nat, left: nat) {
    match xs
    case None => ys.None?
    case Some(list) =>
      && |list| == lastLeft && left == lastLeft + 1 && ys.Some? && |ys.value| == left && ys.value[..lastLeft] == list
      && ys.value[lastLeft] > (if lastLeft == 0 then 0 else list[lastLeft - 1])
  }

  lemma AppendedShape(x: TripleIndex, y: TripleIndex, left: nat, p: nat, o: nat)
    requires Appended(x, y, left, p, o)
    ensures y.Shape() && |y.sp.nums| > 0 && y.sp.nums[|y.sp.nums| - 1] == p
    ensures Rank(y.sp.bits, |y.sp.nums| - 1) == left - 1
    ensures StubsAlone(y.sp) && StubsAlone(y.spo) && GroupsAscend(y.sp) && GroupsAscend(y.spo)
    ensures y.sp.LeftCount() == left && NoTrailingStub(y.sp)
  {
    var lastLeft, m, m' := x.sp.LeftCount(), |x.sp.nums|, |y.sp.nums|;
    if y.sp != x.sp {
      PushedLeftCount(x.sp, lastLeft, left, p);
      PushedRanks(x.sp, lastLeft, left, p);
      PushedKeepsGroups(x.sp, lastLeft, left, p);
    }
    PushedLeftCount(x.spo, m, m', o);
    PushedKeepsGroups(x.spo, m, m', o);
  }

  lemma AppendedSubjectsAscend(x: TripleIndex, y: TripleIndex, left: nat, p: nat, o: nat)
    requires Appended(x, y, left, p, o)
    ensures y.SubjectsAscend()
  {
    hide Rank, StubsAlone, GroupsAscend, TripleIndex.StubsMatch;
    if y.subjects.Some? && y.subjects != x.subjects {
      var old', new' := x.subjects.value, y.subjects.value;
      assert forall i :: 0 <= i < |old'| ==> new'[..|old'|][i] == new'[i] && old'[i] == new'[i];
    }
  }

  lemma AppendedOldPositions(x: TripleIndex, y: TripleIndex, left: nat, p: nat, o: nat, k: nat)
    requires Appended(x, y, left, p, o) && y.Shape() && k < |x.spo.nums|
    ensures k < |y.spo.nums| && y.spo.nums[k] == x.spo.nums[k]
    ensures y.SpAt(k) == x.SpAt(k) && y.sp.nums[y.SpAt(k)] == x.sp.nums[x.SpAt(k)]
    ensures y.TripleAt(k) == x.TripleAt(k)
  {
    PushedRanks(x.spo, |x.sp.nums|, |y.sp.nums|, o);
    if y.sp != x.sp {
      PushedRanks(x.sp, x.sp.LeftCount(), left, p);
    }
    LeftInRange(x.sp, x.SpAt(k));
  }

  /** The new positions: stubs matching the new sp stubs, then the new entry. */
  lemma AppendedNewPositions(x: TripleIndex, y: TripleIndex, left: nat, p: nat, o: nat, k: nat)
    requires Appended(x, y, left, p, o) && y.Shape() && |x.spo.nums| <= k < |y.spo.nums|
    ensures k < |y.spo.nums| - 1 ==> y.spo.nums[k] == 0 && y.sp.nums[y.SpAt(k)] == 0
    ensures k == |y.spo.nums| - 1 ==> y.spo.nums[k] == o && y.SpAt(k) == |y.sp.nums| - 1
  {
    PushedRanks(x.spo, |x.sp.nums|, |y.sp.nums|, o);
  }

  lemma AppendedStubsMatch(x: TripleIndex, y: TripleIndex, left: nat, p: nat, o: nat)
    requires Appended(x, y, left, p, o) && y.Shape() && |y.sp.nums| > 0 && y.sp.nums[|y.sp.nums| - 1] == p
    ensures y.StubsMatch()
  {
    forall k | 0 <= k < |y.spo.nums| ensures y.spo.nums[k] == 0 <==> y.sp.nums[y.SpAt(k)] == 0 {
      if k < |x.spo.nums| {
        AppendedOldPositions(x, y, left, p, o, k);
        assert x.spo.nums[k] == 0 <==> x.sp.nums[x.SpAt(k)] == 0;
      } else {
        AppendedNewPositions(x, y, left, p, o, k);
      }
    }
  }

  lemma ListingExtends(x: TripleIndex, y: TripleIndex)
    requires x.Shape() && y.Shape() && |x.spo.nums| < |y.spo.nums|
    requires forall k :: 0 <= k < |x.spo.nums| ==> y.spo.nums[k] == x.spo.nums[k] && y.TripleAt(k) == x.TripleAt(k)
    requires forall k :: |x.spo.nums| <= k < |y.spo.nums| - 1 ==> y.spo.nums[k] == 0
    requires y.spo.nums[|y.spo.nums| - 1] != 0
    ensures y.Listing() == x.Listing() + [y.TripleAt(|y.spo.nums| - 1)]
  {
    var n, last := |x.spo.nums|, |y.spo.nums| - 1;
    UptoPrefix(x, y, n);
    UptoOverStubs(y, n, last - n);
  }

  lemma AppendedListing(x: TripleIndex, y: TripleIndex, left: nat, p: nat, o: nat)
    requires Appended(x, y, left, p, o) && y.Shape() && |y.sp.nums| > 0 && y.sp.nums[|y.sp.nums| - 1] == p
    ensures y.Listing() == x.Listing() + [Triple(y.SubjectAt(|y.sp.nums| - 1), p, o)]
  {
    var n, n' := |x.spo.nums|, |y.spo.nums|;
    assert n < n';
    forall k | 0 <= k < n ensures y.spo.nums[k] == x.spo.nums[k] && y.TripleAt(k) == x.TripleAt(k) {
      AppendedOldPositions(x, y, left, p, o, k);
    }
    forall k | n <= k < n' ensures (k < n' - 1 ==> y.spo.nums[k] == 0) &&
      (k == n' - 1 ==> y.spo.nums[k] == o && y.SpAt(k) == |y.sp.nums| - 1) {
      AppendedNewPositions(x, y, left, p, o, k);
    }
    ListingExtends(x, y);
  }

  /** One push keeps the index coherent and appends exactly one triple to its listing. */
  lemma AppendStep(x: TripleIndex, y: TripleIndex, left: nat, p: nat, o: nat)
    requires Appended(x, y, left, p, o)
    ensures y.Coherent() && |y.sp.nums| > 0 && Rank(y.sp.bits, |y.sp.nums| - 1) == left - 1
    ensures y.sp.LeftCount() == left
    ensures y.Listing() == x.Listing() + [Triple(y.SubjectAt(|y.sp.nums| - 1), p, o)]
  {
    hide Appended, Pushed, Rank, StubsAlone, GroupsAscend, TripleIndex.StubsMatch, TripleIndex.SubjectsAscend,
      TripleIndex.Listing;
    AppendedShape(x, y, left, p, o);
    AppendedSubjectsAscend(x, y, left, p, o);
    AppendedStubsMatch(x, y, left, p, o);
    AppendedListing(x, y, left, p, o);
  }
}
