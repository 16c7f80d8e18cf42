/** Enumerating one layer's triples in subject order, seeking within them, and looking single
    triples up, all directly on the adjacency lists. */
module SubjectIterators {
  import opened Sorting
  import opened Triples
  import opened AdjacencyLists
  import opened TripleIndexes

  /** The first index holding `v` or more; the length when there is none. */
  function NearestIndexOf(list: seq<nat>, v: nat): (i: nat)
    ensures i <= |list|
    ensures forall k :: 0 <= k < i ==> list[k] < v
    ensures i < |list| ==> list[i] >= v
  {
    if list == [] || list[0] >= v then 0
    else
      var rest := list[1..];
      assert forall k :: 0 < k < |list| ==> list[k] == rest[k - 1];
      1 + NearestIndexOf(rest, v)
  }

  /** The index holding exactly `v`. */
  function IndexOf(list: seq<nat>, v: nat): (r: Option<nat>)
    ensures r.Some? ==> r.value < |list| && list[r.value] == v
  {
    var i := NearestIndexOf(list, v);
    if i < |list| && list[i] == v then Some(i) else None
  }

  function SubjectFrom(s: nat): Triple -> bool {
    (t: Triple) => t.s >= s
  }

  /** `(s, p)` comes no later than the subject and predicate of `t`. */
  predicate PairAtMost(s: nat, p: nat, t: Triple) {
    s < t.s || (s == t.s && p <= t.p)
  }

  predicate InPair(s: nat, p: nat, t: Triple) {
    t.s == s && t.p == p
  }

  /* ---- positions ---- */

  /** The cursor positions agree: the sp position belongs to the spo position, the subject
      position to the sp position. */
  ghost predicate Aligned(x: TripleIndex, sPos: nat, spPos: nat, spoPos: nat)
    requires x.Shape()
  {
    && spoPos <= |x.spo.nums|
    && (spoPos < |x.spo.nums| ==> spPos == x.SpAt(spoPos) && sPos == Rank(x.sp.bits, spPos))
  }

  /** Moving past one spo entry. */
  lemma Advance(x: TripleIndex, spoPos: nat)
    requires x.Shape() && spoPos < |x.spo.nums|
    ensures var spPos := x.SpAt(spoPos);
      spoPos + 1 < |x.spo.nums| ==>
        && x.SpAt(spoPos + 1) == (if x.spo.bits[spoPos] then spPos + 1 else spPos)
        && spPos + 1 <= |x.sp.nums|
        && Rank(x.sp.bits, spPos + 1) == Rank(x.sp.bits, spPos) + (if x.sp.bits[spPos] then 1 else 0)
  {
  }

  /** What is stored at one spo position, and that a stub stands alone. */
  lemma EntryAt(x: TripleIndex, spoPos: nat)
    requires x.Coherent() && spoPos < |x.spo.nums|
    ensures var j := x.SpAt(spoPos);
      && j < |x.sp.nums| && Rank(x.sp.bits, j) < x.sp.LeftCount()
      && x.TripleAt(spoPos) == Triple(x.SubjectAt(j), x.sp.nums[j], x.spo.nums[spoPos])
      && (x.spo.nums[spoPos] == 0 <==> x.sp.nums[j] == 0)
      && (x.sp.nums[j] == 0 ==> x.spo.bits[spoPos] && x.sp.bits[j])
  {
    LeftInRange(x.sp, x.SpAt(spoPos));
  }

  /** Seeking to the group of sp position `j` leaves exactly the entries of earlier pairs behind. */
  lemma CutAtPair(x: TripleIndex, j: nat, i: nat)
    requires x.Shape() && j <= |x.sp.nums| && i < |x.spo.nums|
    ensures i < x.spo.OffsetFor(j + 1) <==> x.SpAt(i) < j
  {
    var k := x.spo.OffsetFor(j + 1);
    if i < k {
      RankMonotone(x.spo.bits, i, k);
    } else {
      RankMonotone(x.spo.bits, k, i);
    }
  }

  /** Likewise for the group of a subject. */
  lemma CutAtSubject(x: TripleIndex, left: nat, j: nat)
    requires x.Shape() && left <= x.sp.LeftCount() && j < |x.sp.nums|
    ensures j < x.sp.OffsetFor(left + 1) <==> Rank(x.sp.bits, j) < left
  {
    var k := x.sp.OffsetFor(left + 1);
    if j < k {
      RankMonotone(x.sp.bits, j, k);
    } else {
      RankMonotone(x.sp.bits, k, j);
    }
  }

  /** Seeking to sp position `j` puts the cursors in agreement. */
  lemma SeekAligns(x: TripleIndex, j: nat)
    requires x.Coherent() && j <= |x.sp.nums|
    ensures var k := x.spo.OffsetFor(j + 1); k < |x.spo.nums| ==> j < |x.sp.nums| && x.SpAt(k) == j
  {
    var k := x.spo.OffsetFor(j + 1);
    if k < |x.spo.nums| {
      LeftInRange(x.spo, k);
    }
  }

  /** Cutting a listing at a position that separates what `keep` drops from what it keeps. */
  lemma CutIsFilter(x: TripleIndex, k: nat, keep: Triple -> bool)
    requires x.Shape() && k <= |x.spo.nums|
    requires forall i :: 0 <= i < |x.spo.nums| && x.spo.nums[i] != 0 ==> (keep(x.TripleAt(i)) <==> k <= i)
    ensures x.From(k) == Filter(keep, x.Listing())
  {
    var before, after := x.Upto(k), x.From(k);
    forall m | 0 <= m < |before| ensures !keep(before[m]) {
      UptoElements(x, k, before[m]);
    }
    forall m | 0 <= m < |after| ensures keep(after[m]) {
      FromElements(x, k, after[m]);
    }
    FilterDropsAll(keep, before);
    FilterKeepsAll(keep, after);
    SplitAt(x, k);
    FilterAppend(keep, before, after);
  }

  /** The subject position a seek chooses: everything before it has a smaller subject. */
  function SubjectPosition(x: TripleIndex, s: nat): (pos: nat)
    requires x.Coherent() && s > 0
    ensures forall j :: 0 <= j < |x.sp.nums| ==> (x.SubjectAt(j) < s <==> Rank(x.sp.bits, j) < pos)
  {
    assert forall j {:trigger x.SubjectAt(j)} :: 0 <= j < |x.sp.nums| ==> Rank(x.sp.bits, j) < x.sp.LeftCount() by {
      forall j | 0 <= j < |x.sp.nums| ensures Rank(x.sp.bits, j) < x.sp.LeftCount() {
        LeftInRange(x.sp, j);
      }
    }
    match x.subjects
    case None => s - 1
    case Some(list) => NearestIndexOf(list, s)
  }

  /** The offset one past the last group is the end of the list. */
  lemma OffsetPastEnd(a: AdjacencyList)
    requires a.Valid()
    ensures a.OffsetFor(a.LeftCount() + 1) == |a.nums|
  {
    StartIsUnique(a.bits, a.OffsetFor(a.LeftCount() + 1), |a.bits|);
  }

  lemma GroupNonempty(a: AdjacencyList, left: nat)
    requires a.Valid() && left < a.LeftCount()
    ensures a.OffsetFor(left + 1) < |a.nums|
  {
  }

  /** The sp position a subject seek chooses. */
  ghost function SubjectCut(x: TripleIndex, s: nat): (j: nat)
    requires x.Coherent() && s > 0
    ensures j <= |x.sp.nums|
    ensures forall i :: 0 <= i < |x.sp.nums| ==> (i < j <==> x.SubjectAt(i) < s)
  {
    var pos := SubjectPosition(x, s);
    if pos >= x.sp.LeftCount() then
      assert forall i :: 0 <= i < |x.sp.nums| ==> x.SubjectAt(i) < s by {
        forall i | 0 <= i < |x.sp.nums| ensures x.SubjectAt(i) < s {
          LeftInRange(x.sp, i);
        }
      }
      |x.sp.nums|
    else
      assert forall i :: 0 <= i < |x.sp.nums| ==> (i < x.sp.OffsetFor(pos + 1) <==> x.SubjectAt(i) < s) by {
        forall i | 0 <= i < |x.sp.nums| ensures i < x.sp.OffsetFor(pos + 1) <==> x.SubjectAt(i) < s {
          CutAtSubject(x, pos, i);
        }
      }
      x.sp.OffsetFor(pos + 1)
  }

  lemma SeekSubjectCut(x: TripleIndex, s: nat)
    requires x.Coherent() && s > 0
    ensures x.From(x.spo.OffsetFor(SubjectCut(x, s) + 1)) == Filter(SubjectFrom(s), x.Listing())
  {
    var j := SubjectCut(x, s);
    var k := x.spo.OffsetFor(j + 1);
    forall i | 0 <= i < |x.spo.nums| ensures SubjectFrom(s)(x.TripleAt(i)) <==> k <= i {
      CutAtPair(x, j, i);
    }
    CutIsFilter(x, k, SubjectFrom(s));
  }

  /** The subject whose group the scan for a predicate walks: `s`, or in a sparse index the least
      listed subject beyond it. */
  ghost function Landed(x: TripleIndex, s: nat): (r: nat)
    requires x.Coherent() && s > 0
    ensures s <= r
  {
    match x.subjects
    case None => s
    case Some(list) => if SubjectPosition(x, s) < |list| then list[SubjectPosition(x, s)] else s
  }

  lemma LandedAt(x: TripleIndex, s: nat, j: nat)
    requires x.Coherent() && s > 0 && j < |x.sp.nums| && s <= x.SubjectAt(j)
    ensures Landed(x, s) <= x.SubjectAt(j)
    ensures SubjectPosition(x, s) == Rank(x.sp.bits, j) ==> Landed(x, s) == x.SubjectAt(j)
  {
    LeftInRange(x.sp, j);
  }

  /** Where the scan for a predicate within a subject's group may stop. */
  ghost predicate PairCut(x: TripleIndex, s: nat, p: nat, pos: nat)
    requires x.Coherent() && s > 0
  {
    && SubjectCut(x, s) <= pos <= |x.sp.nums|
    && (forall j :: SubjectCut(x, s) <= j < pos ==> x.sp.nums[j] < p && x.SubjectAt(j) == Landed(x, s))
    && (forall j :: pos <= j < |x.sp.nums| && x.sp.nums[j] != 0 ==>
      Landed(x, s) < x.SubjectAt(j) || (Landed(x, s) == x.SubjectAt(j) && p <= x.sp.nums[j]))
  }

  /** Seeking to a pair cut drops exactly what comes before the pair in the group walked. */
  lemma SeekPairCut(x: TripleIndex, s: nat, p: nat, pos: nat, t: Triple)
    requires x.Coherent() && s > 0 && PairCut(x, s, p, pos)
    ensures t in x.From(x.spo.OffsetFor(pos + 1)) <==> t in x.Listing() && PairAtMost(Landed(x, s), p, t)
  {
    hide StubsAlone, GroupsAscend, TripleIndex.SubjectsAscend, TripleIndex.From, TripleIndex.Upto, Rank;
    var k := x.spo.OffsetFor(pos + 1);
    FromElements(x, k, t);
    UptoElements(x, |x.spo.nums|, t);
    if i :| k <= i < |x.spo.nums| && x.spo.nums[i] != 0 && x.TripleAt(i) == t {
      CutAtPair(x, pos, i);
      assert x.sp.nums[x.SpAt(i)] != 0;
    }
    if t in x.Listing() && PairAtMost(Landed(x, s), p, t) {
      var i :| 0 <= i < |x.spo.nums| && x.spo.nums[i] != 0 && x.TripleAt(i) == t;
      CutAtPair(x, pos, i);
      assert !(x.SpAt(i) < SubjectCut(x, s));
    }
  }

  lemma PastLastSubject(x: TripleIndex, s: nat, p: nat)
    requires x.Coherent() && s > 0 && SubjectPosition(x, s) >= x.sp.LeftCount()
    ensures PairCut(x, s, p, |x.sp.nums|)
  {
  }

  /** Every triple at or beyond the subject sought is at or beyond the subject landed on. */
  lemma LandedBelow(x: TripleIndex, s: nat, t: Triple)
    requires x.Coherent() && s > 0 && t in x.Listing()
    ensures s <= t.s <==> Landed(x, s) <= t.s
  {
    hide TripleIndex.Upto, TripleIndex.SubjectsAscend, GroupsAscend, NoTrailingStub, StubsAlone, Rank;
    UptoElements(x, |x.spo.nums|, t);
    var k :| 0 <= k < |x.spo.nums| && x.spo.nums[k] != 0 && x.TripleAt(k) == t;
    if s <= t.s {
      LandedAt(x, s, x.SpAt(k));
    }
  }

  /** In a sparse index the subject landed on is listed, unless no listed one is at or beyond `s`. */
  lemma LandedIsListed(x: TripleIndex, s: nat, t: Triple)
    requires x.Coherent() && s > 0 && x.subjects.Some? && t in x.Listing() && s <= t.s
    ensures exists u :: u in x.Listing() && u.s == Landed(x, s)
  {
    hide TripleIndex.Upto, GroupsAscend, NoTrailingStub, StubsAlone, Rank;
    LandedBelow(x, s, t);
    UptoElements(x, |x.spo.nums|, t);
    var i :| 0 <= i < |x.spo.nums| && x.spo.nums[i] != 0 && x.TripleAt(i) == t;
    LeftInRange(x.sp, x.SpAt(i));
    var pos := SubjectPosition(x, s);
    GroupNonempty(x.sp, pos);
    var j := x.sp.OffsetFor(pos + 1);
    GroupNonempty(x.spo, j);
    var k := x.spo.OffsetFor(j + 1);
    UptoElements(x, |x.spo.nums|, x.TripleAt(k));
  }

  /** The entries walked belong to the subject landed on. */
  lemma WalkedGroup(x: TripleIndex, s: nat, pos: nat, j: nat)
    requires x.Coherent() && s > 0 && SubjectCut(x, s) <= j <= pos < |x.sp.nums|
    requires SubjectPosition(x, s) == Rank(x.sp.bits, SubjectCut(x, s)) == Rank(x.sp.bits, pos)
    ensures x.SubjectAt(j) == Landed(x, s)
  {
    hide StubsAlone, GroupsAscend, Rank, TripleIndex.StubsMatch, TripleIndex.SubjectAt;
    RankMonotone(x.sp.bits, SubjectCut(x, s), j);
    RankMonotone(x.sp.bits, j, pos);
    LandedAt(x, s, j);
  }

  /** The scan may stop at the first entry of the group that reaches `p`. */
  lemma StopAtEntry(x: TripleIndex, s: nat, p: nat, pos: nat)
    requires x.Coherent() && s > 0 && SubjectCut(x, s) <= pos < |x.sp.nums|
    requires forall j :: SubjectCut(x, s) <= j < pos ==> x.sp.nums[j] < p
    requires SubjectPosition(x, s) == Rank(x.sp.bits, SubjectCut(x, s)) == Rank(x.sp.bits, pos)
    requires p <= x.sp.nums[pos]
    ensures PairCut(x, s, p, pos)
  {
    hide TripleIndex.Coherent, SubjectCut, SubjectPosition, Landed, TripleIndex.SubjectAt, Rank;
    CoherentShape(x);
    forall j | SubjectCut(x, s) <= j <= pos ensures x.SubjectAt(j) == Landed(x, s) {
      WalkedGroup(x, s, pos, j);
    }
    forall j | pos < j < |x.sp.nums|
      ensures Landed(x, s) < x.SubjectAt(j) || (Landed(x, s) == x.SubjectAt(j) && p <= x.sp.nums[j])
    {
      LaterSubject(x, pos, j);
    }
  }

  /** The scan may stop at the end of the group. */
  lemma StopAtGroupEnd(x: TripleIndex, s: nat, p: nat, pos: nat)
    requires x.Coherent() && s > 0 && SubjectCut(x, s) < pos <= |x.sp.nums|
    requires forall j :: SubjectCut(x, s) <= j < pos ==> x.sp.nums[j] < p
    requires SubjectPosition(x, s) == Rank(x.sp.bits, SubjectCut(x, s)) == Rank(x.sp.bits, pos - 1)
    requires x.sp.Valid() && x.sp.bits[pos - 1]
    ensures PairCut(x, s, p, pos)
  {
    hide TripleIndex.Coherent, SubjectCut, SubjectPosition, Landed, TripleIndex.SubjectAt, Rank;
    CoherentShape(x);
    forall j | SubjectCut(x, s) <= j < pos ensures x.SubjectAt(j) == Landed(x, s) {
      WalkedGroup(x, s, pos - 1, j);
    }
    RankNext(x.sp.bits, pos - 1);
    forall j | pos <= j < |x.sp.nums| ensures Landed(x, s) < x.SubjectAt(j) {
      RankMonotone(x.sp.bits, pos, j);
      LaterSubject(x, pos - 1, j);
    }
  }

  lemma LaterSubject(x: TripleIndex, i: nat, j: nat)
    requires x.Coherent() && i <= j < |x.sp.nums|
    ensures x.SubjectAt(i) <= x.SubjectAt(j) && Rank(x.sp.bits, i) <= Rank(x.sp.bits, j)
    ensures Rank(x.sp.bits, i) < Rank(x.sp.bits, j) ==> x.SubjectAt(i) < x.SubjectAt(j)
    ensures Rank(x.sp.bits, i) == Rank(x.sp.bits, j) && i < j ==> x.sp.nums[i] < x.sp.nums[j]
  {
    RankMonotone(x.sp.bits, i, j);
    LeftInRange(x.sp, i);
    LeftInRange(x.sp, j);
  }

  lemma FromStart(x: TripleIndex)
    requires x.Shape()
    ensures x.From(0) == x.Listing()
  {
    SplitAt(x, 0);
    assert x.Upto(0) + x.From(0) == x.From(0);
  }

  lemma FromIncreases(x: TripleIndex, k: nat)
    requires x.Coherent() && k <= |x.spo.nums|
    ensures Increasing(BySubject, x.From(k))
  {
    ListingIncreases(x);
    SplitAt(x, k);
    var all, before, rest := x.Listing(), x.Upto(k), x.From(k);
    assert forall i :: 0 <= i < |rest| ==> rest[i] == all[|before| + i];
  }

  lemma CutLeaves(x: TripleIndex, s: nat, p: nat, pos: nat)
    requires x.Coherent() && s > 0 && PairCut(x, s, p, pos)
    ensures var rest := x.From(x.spo.OffsetFor(pos + 1));
      && Increasing(BySubject, rest)
      && (forall t :: t in rest <==> t in x.Listing() && PairAtMost(Landed(x, s), p, t))
      && (forall t :: t in x.Listing() && InPair(s, p, t) ==> t in rest)
  {
    hide TripleIndex.From, TripleIndex.Listing, Landed, PairCut, TripleIndex.Coherent, Increasing;
    CoherentShape(x);
    PairCutWithin(x, s, p, pos);
    var rest := x.From(x.spo.OffsetFor(pos + 1));
    FromIncreases(x, x.spo.OffsetFor(pos + 1));
    forall t ensures t in rest <==> t in x.Listing() && PairAtMost(Landed(x, s), p, t) {
      SeekPairCut(x, s, p, pos, t);
    }
    forall t | t in x.Listing() && InPair(s, p, t) ensures t in rest {
      LandedBelow(x, s, t);
    }
  }

  lemma PairCutWithin(x: TripleIndex, s: nat, p: nat, pos: nat)
    requires x.Coherent() && s > 0 && PairCut(x, s, p, pos)
    ensures pos <= |x.sp.nums|
  {
  }

  class SubjectIterator {
    const x: TripleIndex
    var sPos: nat
    var spPos: nat
    var spoPos: nat
    var peeked: Option<Triple>

    ghost predicate Valid()
      reads this
    {
      x.Coherent() && Aligned(x, sPos, spPos, spoPos)
    }

    /** What `Next` will still yield. */
    ghost function Rest(): seq<Triple>
      requires Valid()
      reads this
    {
      if peeked.Some? then [peeked.value] + x.From(spoPos) else x.From(spoPos)
    }

    constructor (x: TripleIndex)
      requires x.Coherent()
      ensures Valid() && this.x == x && peeked == None && Rest() == x.Listing()
    {
      this.x := x;
      sPos, spPos, spoPos, peeked := 0, 0, 0, None;
      new;
      FromStart(x);
    }

    method Next() returns (r: Option<Triple>)
      requires Valid()
      modifies this
      ensures Valid()
      ensures old(Rest()) == [] ==> r == None && Rest() == []
      ensures old(Rest()) != [] ==> r == Some(old(Rest())[0]) && Rest() == old(Rest())[1..]
      ensures peeked == None
    {
      hide GroupsAscend, TripleIndex.SubjectsAscend, Rank, TripleIndex.SpAt, NoTrailingStub;
      if peeked.Some? {
        r := peeked;
        peeked := None;
        return;
      }
      while true
        invariant Valid() && peeked == None && Rest() == old(Rest())
        decreases |x.spo.nums| - spoPos
      {
        if spoPos >= x.spo.RightCount() {
          return None;
        }
        Advance(x, spoPos);
        EntryAt(x, spoPos);
        var pos := sPos;
        var spBit := x.sp.BitAt(spPos);
        var predicate_ := x.sp.NumAt(spPos);
        if predicate_ == 0 {
          if spBit {
            sPos := sPos + 1;
          }
          spPos := spPos + 1;
          spoPos := spoPos + 1;
          continue;
        }
        var spoBit := x.spo.BitAt(spoPos);
        var object_ := x.spo.NumAt(spoPos);
        if spoBit {
          spPos := spPos + 1;
          if spBit {
            sPos := sPos + 1;
          }
        }
        spoPos := spoPos + 1;
        if object_ == 0 {
          continue;
        }
        var subject := if x.subjects.Some? then x.subjects.value[pos] else pos + 1;
        return Some(Triple(subject, predicate_, object_));
      }
    }

    method Peek() returns (r: Option<Triple>)
      requires Valid()
      modifies this
      ensures Valid() && Rest() == old(Rest())
      ensures r == if Rest() == [] then None else Some(Rest()[0])
    {
      peeked := Next();
      r := peeked;
    }

    /** Afterwards exactly the triples with subject `s` or greater are left. */
    method SeekSubject(s: nat)
      requires Valid()
      modifies this
      ensures Valid() && peeked == None && Rest() == Filter(SubjectFrom(s), x.Listing())
    {
      hide StubsAlone, GroupsAscend, TripleIndex.StubsMatch, TripleIndex.From, TripleIndex.Listing, Filter, Rank;
      peeked := None;
      if s == 0 {
        sPos, spPos, spoPos := 0, 0, 0;
        CutIsFilter(x, 0, SubjectFrom(s));
        return;
      }
      sPos := if x.subjects.Some? then NearestIndexOf(x.subjects.value, s) else s - 1;
      if sPos >= x.sp.LeftCount() {
        spPos := x.sp.RightCount();
        spoPos := x.spo.RightCount();
        OffsetPastEnd(x.spo);
      } else {
        spPos := x.sp.OffsetFor(sPos + 1);
        spoPos := x.spo.OffsetFor(spPos + 1);
        SeekAligns(x, spPos);
      }
      assert sPos == SubjectPosition(x, s) && spPos == SubjectCut(x, s);
      SeekSubjectCut(x, s);
    }

    /** Afterwards exactly the triples from predicate `p` of the subject landed on are left: every
        triple of the pair `(s, p)` and none of an earlier pair. */
    method SeekSubjectPredicate(s: nat, p: nat)
      requires Valid()
      modifies this
      ensures Valid() && peeked == None && Increasing(BySubject, Rest())
      ensures forall t :: t in Rest() <==> t in x.Listing() && (s == 0 || PairAtMost(Landed(x, s), p, t))
      ensures forall t :: t in Rest() ==> PairAtMost(s, p, t)
      ensures forall t :: t in x.Listing() && InPair(s, p, t) ==> t in Rest()
    {
      hide StubsAlone, GroupsAscend, TripleIndex.StubsMatch, TripleIndex.From, TripleIndex.Listing, Filter, Rank,
        Increasing, PairCut;
      ListingIncreases(x);
      if p == 0 {
        SeekSubject(s);
        FilterIncreases(BySubject, SubjectFrom(s), x.Listing());
        forall t ensures t in Rest() <==> t in x.Listing() && (s == 0 || PairAtMost(Landed(x, s), p, t)) {
          FilterElement(SubjectFrom(s), x.Listing(), t);
          if s > 0 && t in x.Listing() {
            LandedBelow(x, s, t);
          }
        }
        return;
      }
      peeked := None;
      if s == 0 {
        sPos, spPos, spoPos := 0, 0, 0;
        FromStart(x);
        forall t | t in Rest() ensures PairAtMost(s, p, t) {
          var i :| 0 <= i < |x.Listing()| && x.Listing()[i] == t;
        }
        return;
      }
      sPos := if x.subjects.Some? then NearestIndexOf(x.subjects.value, s) else s - 1;
      if sPos >= x.sp.LeftCount() {
        spPos := x.sp.RightCount();
        spoPos := x.spo.RightCount();
        OffsetPastEnd(x.spo);
        assert PairCut(x, s, p, spPos) by { PastLastSubject(x, s, p); }
      } else {
        ScanGroup(s, p);
        spoPos := x.spo.OffsetFor(spPos + 1);
        SeekAligns(x, spPos);
      }
      CutLeaves(x, s, p, spPos);
    }

    /** Walks the group of the current subject up to predicate `p`, or past its end. */
    method ScanGroup(s: nat, p: nat)
      requires x.Coherent() && s > 0 && sPos == SubjectPosition(x, s) < x.sp.LeftCount()
      modifies `sPos, `spPos
      ensures PairCut(x, s, p, spPos) && spPos <= |x.sp.nums| && sPos == Rank(x.sp.bits, spPos)
    {
      hide StubsAlone, GroupsAscend, TripleIndex.StubsMatch, Rank, PairCut;
      ghost var start := SubjectCut(x, s);
      var pos := x.sp.OffsetFor(sPos + 1);
      GroupNonempty(x.sp, sPos);
      while x.sp.NumAt(pos) < p
        invariant start <= pos < |x.sp.nums| && Rank(x.sp.bits, pos) == sPos == Rank(x.sp.bits, start)
        invariant forall j :: start <= j < pos ==> x.sp.nums[j] < p
        decreases |x.sp.nums| - pos
      {
        RankNext(x.sp.bits, pos);
        pos := pos + 1;
        if x.sp.BitAt(pos - 1) {
          // moved past the end for this subject without finding the predicate
          sPos := sPos + 1;
          spPos := pos;
          StopAtGroupEnd(x, s, p, pos);
          return;
        }
      }
      spPos := pos;
      StopAtEntry(x, s, p, pos);
    }

    /** Positions the iterator at the start of the pair at sp position `pos`. */
    method SeekSpPos(pos: nat)
      requires Valid() && pos < |x.sp.nums|
      modifies this
      ensures Valid() && peeked == None && spoPos == x.spo.OffsetFor(pos + 1) && Rest() == x.From(spoPos)
    {
      peeked := None;
      spPos := pos;
      sPos := x.sp.LeftAt(pos) - 1;
      spoPos := x.spo.OffsetFor(spPos + 1);
      SeekAligns(x, pos);
    }
  }
}
