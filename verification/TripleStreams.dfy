/** Streaming the triples of a layer's files: two pair streams, which skip stubs, stitched
    together, and for a child layer the stream of its subjects. */
module TripleStreams {
  import opened Sorting
  import opened Triples
  import opened AdjacencyLists
  import opened TripleIndexes
  import opened SubjectIterators

  /** The pair stream of an adjacency list from position `i` on; stubs are skipped. */
  function PairsFrom(a: AdjacencyList, i: nat): seq<(nat, nat)>
    requires a.Valid() && i <= |a.nums|
    decreases |a.nums| - i
  {
    if i == |a.nums| then []
    else (if a.nums[i] == 0 then [] else [(a.LeftAt(i), a.nums[i])]) + PairsFrom(a, i + 1)
  }

  /** The first real entry at position `i` or later. */
  function NextReal(nums: seq<nat>, i: nat): (k: nat)
    requires i <= |nums|
    ensures i <= k <= |nums| && (k < |nums| ==> nums[k] != 0) && forall m :: i <= m < k ==> nums[m] == 0
    decreases |nums| - i
  {
    if i == |nums| || nums[i] != 0 then i else NextReal(nums, i + 1)
  }

  lemma {:induction false} PairsSkip(a: AdjacencyList, i: nat)
    requires a.Valid() && i <= |a.nums|
    ensures var k := NextReal(a.nums, i); PairsFrom(a, i) == PairsFrom(a, k)
    ensures var k := NextReal(a.nums, i);
      PairsFrom(a, k) == if k == |a.nums| then [] else [(a.LeftAt(k), a.nums[k])] + PairsFrom(a, k + 1)
    decreases |a.nums| - i
  {
    hide Rank;
    if i < |a.nums| && a.nums[i] == 0 {
      PairsSkip(a, i + 1);
    }
  }

  lemma {:induction false} FromSkip(x: TripleIndex, i: nat)
    requires x.Shape() && i <= |x.spo.nums|
    ensures var k := NextReal(x.spo.nums, i);
      x.From(i) == if k == |x.spo.nums| then [] else [x.TripleAt(k)] + x.From(k + 1)
    decreases |x.spo.nums| - i
  {
    if i < |x.spo.nums| && x.spo.nums[i] == 0 {
      FromSkip(x, i + 1);
    }
  }

  /** Entries before `k` belong to the pairs before `pair`, later ones to that pair or later. */
  ghost predicate Cut(x: TripleIndex, k: nat, pair: nat)
    requires x.Shape()
  {
    && k <= |x.spo.nums| && pair <= |x.sp.nums|
    && (forall m :: 0 <= m < k ==> x.spo.nums[m] == 0 || x.SpAt(m) < pair)
    && (forall m :: k <= m < |x.spo.nums| ==> pair <= x.SpAt(m) + 1)
  }

  /** Between two pairs with objects there are only stubs. */
  lemma SkippedAreStubs(x: TripleIndex, k: nat, pair: nat, j: nat)
    requires x.Coherent() && Cut(x, k, pair)
    requires var next := NextReal(x.spo.nums, k); next < |x.spo.nums| && pair <= j < x.SpAt(next)
    ensures x.sp.nums[j] == 0
  {
    hide TripleIndex.SubjectsAscend, StubsAlone, GroupsAscend, NoTrailingStub;
    var next := NextReal(x.spo.nums, k);
    var m := x.spo.OffsetFor(j + 1);
    GroupNonempty(x.spo, j + 1);
    assert x.SpAt(m) == j;
    if m >= next {
      RankMonotone(x.spo.bits, next, m);
    }
    assert x.spo.nums[m] == 0;
  }

  lemma NextPair(x: TripleIndex, k: nat, pair: nat)
    requires x.Coherent() && Cut(x, k, pair)
    requires var next := NextReal(x.spo.nums, k); next < |x.spo.nums| && pair <= x.SpAt(next)
    ensures var next := NextReal(x.spo.nums, k); NextReal(x.sp.nums, pair) == x.SpAt(next)
  {
    hide TripleIndex.Coherent, Cut, Rank;
    CoherentShape(x);
    var next := NextReal(x.spo.nums, k);
    var j := x.SpAt(next);
    forall i | pair <= i < j ensures x.sp.nums[i] == 0 {
      SkippedAreStubs(x, k, pair, i);
    }
    RealPair(x, next);
    FirstReal(x.sp.nums, pair, j);
  }

  lemma RealPair(x: TripleIndex, m: nat)
    requires x.Coherent() && m < |x.spo.nums| && x.spo.nums[m] != 0
    ensures x.sp.nums[x.SpAt(m)] != 0
  {
  }

  lemma {:induction false} FirstReal(nums: seq<nat>, i: nat, j: nat)
    requires i <= j < |nums| && nums[j] != 0 && forall m :: i <= m < j ==> nums[m] == 0
    ensures NextReal(nums, i) == j
    decreases j - i
  {
    if i < j {
      FirstReal(nums, i + 1, j);
    }
  }

  /** The cut after the next real entry. */
  lemma CutMoves(x: TripleIndex, k: nat, pair: nat)
    requires x.Coherent() && Cut(x, k, pair)
    requires NextReal(x.spo.nums, k) < |x.spo.nums|
    ensures var next := NextReal(x.spo.nums, k); Cut(x, next + 1, x.SpAt(next) + 1) && pair <= x.SpAt(next) + 1
  {
    hide TripleIndex.Coherent, Rank;
    CoherentShape(x);
    var next := NextReal(x.spo.nums, k);
    var pair' := x.SpAt(next) + 1;
    forall m | 0 <= m < next + 1 ensures x.spo.nums[m] == 0 || x.SpAt(m) < pair' {
      RankMonotone(x.spo.bits, m, next);
    }
    forall m | next + 1 <= m < |x.spo.nums| ensures pair' <= x.SpAt(m) + 1 {
      RankMonotone(x.spo.bits, next, m);
    }
  }

  class BaseTripleStream {
    var sPStream: seq<(nat, nat)>
    var spOStream: seq<(nat, nat)>
    var lastSP: (nat, nat)
    var lastSp: nat
    ghost const x: TripleIndex
    ghost var k: nat

    ghost predicate Valid()
      reads this
    {
      && x.Coherent() && x.subjects.None? && Cut(x, k, lastSp)
      && spOStream == PairsFrom(x.spo, k) && sPStream == PairsFrom(x.sp, lastSp)
      && (lastSp > 0 ==> lastSP == (x.sp.LeftAt(lastSp - 1), x.sp.nums[lastSp - 1]))
    }

    /** What is still to be streamed. */
    ghost function Rest(): seq<Triple>
      requires Valid()
      reads this
    {
      x.From(k)
    }

    constructor (x: TripleIndex)
      requires x.Coherent() && x.subjects.None?
      ensures Valid() && Rest() == x.Listing()
    {
      this.x := x;
      sPStream, spOStream := PairsFrom(x.sp, 0), PairsFrom(x.spo, 0);
      lastSP, lastSp := (0, 0), 0;
      k := 0;
      new;
      FromStart(x);
    }

    /** One poll: the next triple, if there is one. The stream of pairs never ends early. */
    method PollNext() returns (r: Option<Triple>)
      requires Valid()
      modifies this
      ensures Valid()
      ensures old(Rest()) == [] ==> r == None && Rest() == []
      ensures old(Rest()) != [] ==> r == Some(old(Rest())[0]) && Rest() == old(Rest())[1..]
    {
      hide TripleIndex.Coherent, Cut, Rank, PairsFrom, TripleIndex.From, TripleIndex.TripleAt, AdjacencyList.LeftAt,
        NextReal;
      CoherentShape(x);
      CutBounds(x, k, lastSp);
      FromSkip(x, k);
      PairsSkip(x.spo, k);
      ghost var next := NextReal(x.spo.nums, k);
      if spOStream == [] {
        return None;
      }
      CutMoves(x, k, lastSp);
      CutBounds(x, next + 1, x.SpAt(next) + 1);
      DensePair(x, next);
      var (sp, o) := spOStream[0];
      if sp > lastSp {
        NextPair(x, k, lastSp);
        PairsSkip(x.sp, lastSp);
        var (s, p) := sPStream[0];
        sPStream := sPStream[1..];
        spOStream := spOStream[1..];
        lastSP := (s, p);
        lastSp := sp;
        k := next + 1;
        return Some(Triple(s, p, o));
      } else {
        spOStream := spOStream[1..];
        k := next + 1;
        return Some(Triple(lastSP.0, lastSP.1, o));
      }
    }
  }

  /** Without a list of subjects, subjects are their own groups. */
  lemma DensePair(x: TripleIndex, m: nat)
    requires x.Shape() && x.subjects.None? && m < |x.spo.nums|
    ensures x.spo.LeftAt(m) == x.SpAt(m) + 1 && x.TripleAt(m) ==
      Triple(x.sp.LeftAt(x.SpAt(m)), x.sp.nums[x.SpAt(m)], x.spo.nums[m])
  {
  }

  lemma CutBounds(x: TripleIndex, k: nat, pair: nat)
    requires x.Shape() && Cut(x, k, pair)
    ensures k <= |x.spo.nums| && pair <= |x.sp.nums|
  {
  }

  /** Draining a fresh stream gives back exactly the triples of the files, in order. */
  method CollectStream(x: TripleIndex) returns (out: seq<Triple>)
    requires x.Coherent() && x.subjects.None?
    ensures out == x.Listing()
  {
    hide TripleIndex.Coherent, BaseTripleStream.Valid, BaseTripleStream.Rest;
    CoherentShape(x);
    var stream := new BaseTripleStream(x);
    out := [];
    while true
      invariant fresh(stream) && stream.Valid() && out + stream.Rest() == x.Listing()
      decreases |stream.Rest()|
    {
      ghost var rest := stream.Rest();
      var r := stream.PollNext();
      if r.None? {
        assert out + [] == out;
        return;
      }
      assert out + rest == out + [rest[0]] + rest[1..];
      out := out + [r.value];
    }
  }

  /* ---- child layers ---- */

  /** The number of subjects whose pairs come before pair `i`, counting the one it belongs to if
      an earlier pair does too. */
  ghost function SubjectsBefore(x: TripleIndex, i: nat): (n: nat)
    requires x.Shape() && i <= |x.sp.nums|
    ensures n <= x.sp.LeftCount()
  {
    if i == 0 then 0 else
      LeftInRange(x.sp, i - 1);
      x.sp.LeftAt(i - 1)
  }

  /** The next pair belongs to the same subject or to the next one. */
  lemma NextSubject(x: TripleIndex, i: nat)
    requires x.Coherent() && x.subjects.Some? && i < |x.sp.nums|
    ensures SubjectsBefore(x, i) <= x.sp.LeftAt(i) <= SubjectsBefore(x, i) + 1
    ensures x.sp.LeftAt(i) <= |x.subjects.value| && x.SubjectAt(i) == x.subjects.value[x.sp.LeftAt(i) - 1]
    ensures NextReal(x.sp.nums, i) == i
  {
    hide TripleIndex.Coherent, TripleIndex.SubjectsAscend, Rank, TripleIndex.SubjectAt;
    CoherentShape(x);
    ListedSubject(x, i);
    NoStubs(x, i);
    if i > 0 {
      RankNext(x.sp.bits, i - 1);
    } else {
      NothingBefore(x.sp);
    }
  }

  lemma ListedSubject(x: TripleIndex, i: nat)
    requires x.Shape() && x.subjects.Some? && i < |x.sp.nums|
    ensures x.sp.LeftAt(i) <= |x.subjects.value| && x.SubjectAt(i) == x.subjects.value[x.sp.LeftAt(i) - 1]
  {
    LeftInRange(x.sp, i);
  }

  lemma NothingBefore(a: AdjacencyList)
    ensures Rank(a.bits, 0) == 0
  {
  }

  lemma NoStubs(x: TripleIndex, i: nat)
    requires x.SubjectsAscend() && x.subjects.Some? && i < |x.sp.nums|
    ensures x.sp.nums[i] != 0
  {
  }

  class ChildTripleStream {
    var subjectsStream: seq<nat>
    var sPStream: seq<(nat, nat)>
    var spOStream: seq<(nat, nat)>
    var lastMappedS: nat
    var lastSP: (nat, nat)
    var lastSp: nat
    ghost const x: TripleIndex
    ghost var k: nat

    ghost predicate Valid()
      reads this
    {
      && x.Coherent() && x.subjects.Some? && Cut(x, k, lastSp)
      && spOStream == PairsFrom(x.spo, k) && sPStream == PairsFrom(x.sp, lastSp)
      && subjectsStream == x.subjects.value[SubjectsBefore(x, lastSp)..]
      && lastSP.0 == SubjectsBefore(x, lastSp)
      && (lastSp > 0 ==> lastSP.1 == x.sp.nums[lastSp - 1] && lastMappedS == x.SubjectAt(lastSp - 1))
    }

    ghost function Rest(): seq<Triple>
      requires Valid()
      reads this
    {
      x.From(k)
    }

    constructor (x: TripleIndex)
      requires x.Coherent() && x.subjects.Some?
      ensures Valid() && Rest() == x.Listing()
    {
      this.x := x;
      subjectsStream := x.subjects.value;
      sPStream, spOStream := PairsFrom(x.sp, 0), PairsFrom(x.spo, 0);
      lastMappedS, lastSP, lastSp := 0, (0, 0), 0;
      k := 0;
      new;
      FromStart(x);
    }

    /** One poll. Neither the stream of pairs nor that of subjects ends early. */
    method PollNext() returns (r: Option<Triple>)
      requires Valid()
      modifies this
      ensures Valid()
      ensures old(Rest()) == [] ==> r == None && Rest() == []
      ensures old(Rest()) != [] ==> r == Some(old(Rest())[0]) && Rest() == old(Rest())[1..]
    {
      hide TripleIndex.Coherent, Cut, Rank, PairsFrom, TripleIndex.From, TripleIndex.SubjectAt, SubjectsBefore,
        NextReal, AdjacencyList.LeftAt;
      CoherentShape(x);
      CutBounds(x, k, lastSp);
      FromSkip(x, k);
      PairsSkip(x.spo, k);
      ghost var next := NextReal(x.spo.nums, k);
      if spOStream == [] {
        return None;
      }
      CutMoves(x, k, lastSp);
      CutBounds(x, next + 1, x.SpAt(next) + 1);
      EntryPair(x, next);
      var (sp, o) := spOStream[0];
      if sp > lastSp {
        NextPair(x, k, lastSp);
        PairsSkip(x.sp, lastSp);
        NextSubject(x, lastSp);
        BeforeNext(x, lastSp);
        var (s, p) := sPStream[0];
        if s > lastSP.0 {
          var mappedS := subjectsStream[0];
          subjectsStream := subjectsStream[1..];
          sPStream := sPStream[1..];
          spOStream := spOStream[1..];
          lastMappedS := mappedS;
          lastSP := (s, p);
          lastSp := sp;
          k := next + 1;
          return Some(Triple(mappedS, p, o));
        } else {
          SameSubject(x, lastSp);
          sPStream := sPStream[1..];
          spOStream := spOStream[1..];
          lastSP := (s, p);
          lastSp := sp;
          k := next + 1;
          return Some(Triple(lastMappedS, p, o));
        }
      } else {
        spOStream := spOStream[1..];
        k := next + 1;
        return Some(Triple(lastMappedS, lastSP.1, o));
      }
    }
  }

  lemma EntryPair(x: TripleIndex, m: nat)
    requires x.Coherent() && m < |x.spo.nums|
    ensures x.spo.LeftAt(m) == x.SpAt(m) + 1 && x.TripleAt(m) ==
      Triple(x.SubjectAt(x.SpAt(m)), x.sp.nums[x.SpAt(m)], x.spo.nums[m])
  {
    hide TripleIndex.Coherent;
    CoherentShape(x);
  }

  lemma BeforeNext(x: TripleIndex, i: nat)
    requires x.Shape() && i < |x.sp.nums|
    ensures SubjectsBefore(x, i + 1) == x.sp.LeftAt(i) <= x.sp.LeftCount()
  {
    LeftInRange(x.sp, i);
  }

  lemma SameSubject(x: TripleIndex, i: nat)
    requires x.Coherent() && x.subjects.Some? && i < |x.sp.nums| && x.sp.LeftAt(i) == SubjectsBefore(x, i)
    ensures i > 0 && x.SubjectAt(i) == x.SubjectAt(i - 1)
  {
    LeftInRange(x.sp, i);
  }
}
