/** Enumerating one layer's triples of one predicate: the wavelet lookup gives the positions
    of the predicate, and a subject iterator is moved from one to the next. */
module PredicateIterators {
  import opened Sorting
  import opened Triples
  import opened AdjacencyLists
  import opened TripleIndexes
  import opened SubjectIterators

  /** The positions below `n` holding `p`, ascending: what a wavelet lookup lists. */
  function Positions(nums: seq<nat>, p: nat, n: nat): (r: seq<nat>)
    requires n <= |nums|
    ensures forall i :: 0 <= i < |r| ==> r[i] < n && nums[r[i]] == p
    ensures forall i, j :: 0 <= i < j < |r| ==> r[i] < r[j]
  {
    if n == 0 then [] else Positions(nums, p, n - 1) + (if nums[n - 1] == p then [n - 1] else [])
  }

  lemma {:induction false} PositionsComplete(nums: seq<nat>, p: nat, n: nat, j: nat)
    requires j < n <= |nums| && nums[j] == p
    ensures j in Positions(nums, p, n)
  {
    if j < n - 1 {
      PositionsComplete(nums, p, n - 1, j);
    }
  }

  lemma {:induction false} PositionsEmpty(nums: seq<nat>, p: nat, n: nat)
    requires n <= |nums| && p !in nums
    ensures Positions(nums, p, n) == []
  {
    if n > 0 {
      PositionsEmpty(nums, p, n - 1);
    }
  }

  function PairIs(s: nat, p: nat): Triple -> bool {
    (t: Triple) => InPair(s, p, t)
  }

  function PredicateIs(p: nat): Triple -> bool {
    (t: Triple) => t.p == p
  }

  /** The leading triples that share the first one's subject and predicate. */
  function HeadRun(ts: seq<Triple>): seq<Triple> {
    if ts == [] then [] else TakeWhile(PairIs(ts[0].s, ts[0].p), ts)
  }

  /** In subject order, with nothing before the pair, its triples are a prefix. */
  lemma PairIsPrefix(s: nat, p: nat, ts: seq<Triple>)
    requires Increasing(BySubject, ts) && forall t :: t in ts ==> PairAtMost(s, p, t)
    ensures TakeWhile(PairIs(s, p), ts) == Filter(PairIs(s, p), ts)
  {
    forall i, j | 0 <= i < j < |ts| && PairIs(s, p)(ts[j]) ensures PairIs(s, p)(ts[i]) {
      assert ts[i] in ts && Before(BySubject, ts[i], ts[j]);
    }
    TakeWhileIsFilter(PairIs(s, p), ts);
  }

  /** After a seek, taking the triples of the pair as long as they last gives all of them. */
  lemma SoughtPair(s: nat, p: nat, rest: seq<Triple>, all: seq<Triple>)
    requires Increasing(BySubject, rest) && Increasing(BySubject, all)
    requires forall t :: t in rest ==> t in all && PairAtMost(s, p, t)
    requires forall t :: t in all && InPair(s, p, t) ==> t in rest
    ensures TakeWhile(PairIs(s, p), rest) == Filter(PairIs(s, p), all)
  {
    hide Filter, TakeWhile, Increasing;
    PairIsPrefix(s, p, rest);
    var a, b := Filter(PairIs(s, p), rest), Filter(PairIs(s, p), all);
    FilterIncreases(BySubject, PairIs(s, p), rest);
    FilterIncreases(BySubject, PairIs(s, p), all);
    forall t ensures t in a <==> t in b {
      FilterElement(PairIs(s, p), rest, t);
      FilterElement(PairIs(s, p), all, t);
    }
    assert Elements(a) == Elements(b);
    IncreasingIsUnique(BySubject, a, b);
  }

  /** One layer's additions, or removals, with the given subject and predicate. */
  method TriplesOfPair(x: TripleIndex, s: nat, p: nat) returns (out: seq<Triple>)
    requires x.Coherent()
    ensures out == Filter(PairIs(s, p), x.Listing())
  {
    hide TripleIndex.Coherent, SubjectIterator.Valid, SubjectIterator.Rest, Filter, TripleIndex.Listing, Increasing;
    CoherentShape(x);
    ListingIncreases(x);
    var it := new SubjectIterator(x);
    it.SeekSubjectPredicate(s, p);
    SoughtPair(s, p, it.Rest(), x.Listing());
    out := [];
    while true
      invariant fresh(it) && it.Valid() && out + TakeWhile(PairIs(s, p), it.Rest()) == Filter(PairIs(s, p), x.Listing())
      decreases |it.Rest()|
    {
      ghost var rest := it.Rest();
      var t := it.Next();
      if t.None? || !InPair(s, p, t.value) {
        assert out + [] == out;
        return;
      }
      assert out + [t.value] + TakeWhile(PairIs(s, p), rest[1..]) == out + TakeWhile(PairIs(s, p), rest);
      out := out + [t.value];
    }
  }

  /** The run a subject iterator would yield from sp position `j`. */
  function RunAt(x: TripleIndex, j: nat): seq<Triple>
    requires x.Shape() && j < |x.sp.nums|
  {
    HeadRun(x.From(x.spo.OffsetFor(j + 1)))
  }

  function Runs(x: TripleIndex, positions: seq<nat>): seq<Triple>
    requires x.Shape() && forall i :: 0 <= i < |positions| ==> positions[i] < |x.sp.nums|
  {
    if positions == [] then [] else RunAt(x, positions[0]) + Runs(x, positions[1..])
  }

  /** There is a triple at or after every sp position. */
  lemma SomethingFollows(x: TripleIndex, j: nat)
    requires x.Coherent() && j < |x.sp.nums|
    ensures x.From(x.spo.OffsetFor(j + 1)) != []
  {
    hide StubsAlone, GroupsAscend, TripleIndex.SubjectsAscend, Rank, TripleIndex.From;
    var k, n := x.spo.OffsetFor(j + 1), |x.spo.nums|;
    GroupNonempty(x.spo, j);
    GroupNonempty(x.spo, |x.sp.nums| - 1);
    LastEntry(x);
    FromElements(x, k, x.TripleAt(n - 1));
  }

  lemma LastEntry(x: TripleIndex)
    requires x.Coherent() && x.spo.nums != []
    ensures x.spo.nums[|x.spo.nums| - 1] != 0
  {
    var n := |x.spo.nums|;
    RankNext(x.spo.bits, n - 1);
    assert x.SpAt(n - 1) == |x.sp.nums| - 1;
  }

  /** The run at a real position is exactly the pair's triples. */
  lemma RunElements(x: TripleIndex, j: nat, t: Triple)
    requires x.Coherent() && j < |x.sp.nums| && x.sp.nums[j] != 0
    ensures t in RunAt(x, j) <==> t in x.Listing() && InPair(x.SubjectAt(j), x.sp.nums[j], t)
    ensures Increasing(BySubject, RunAt(x, j))
  {
    hide StubsAlone, GroupsAscend, TripleIndex.StubsMatch, TripleIndex.SubjectsAscend, Rank, TripleIndex.From,
      TripleIndex.Listing, TakeWhile, Filter;
    var k := x.spo.OffsetFor(j + 1);
    var s, p, rest := x.SubjectAt(j), x.sp.nums[j], x.From(k);
    RunHead(x, j);
    FromIncreases(x, k);
    forall u | u in rest ensures PairAtMost(s, p, u) {
      var i :| 0 <= i < |rest| && rest[i] == u;
      assert i > 0 ==> Before(BySubject, rest[0], rest[i]);
    }
    PairIsPrefix(s, p, rest);
    FilterIncreases(BySubject, PairIs(s, p), rest);
    FilterElement(PairIs(s, p), rest, t);
    if InPair(s, p, t) {
      RunHolds(x, j, t);
    }
  }

  lemma RunHead(x: TripleIndex, j: nat)
    requires x.Coherent() && j < |x.sp.nums| && x.sp.nums[j] != 0
    ensures var rest := x.From(x.spo.OffsetFor(j + 1));
      rest != [] && rest[0].s == x.SubjectAt(j) && rest[0].p == x.sp.nums[j]
  {
    hide StubsAlone, GroupsAscend, TripleIndex.SubjectsAscend, Rank;
    var k := x.spo.OffsetFor(j + 1);
    GroupNonempty(x.spo, j);
    SeekAligns(x, j);
    assert x.spo.nums[k] != 0;
  }

  lemma RunHolds(x: TripleIndex, j: nat, t: Triple)
    requires x.Coherent() && j < |x.sp.nums| && x.sp.nums[j] != 0 && InPair(x.SubjectAt(j), x.sp.nums[j], t)
    ensures t in x.From(x.spo.OffsetFor(j + 1)) <==> t in x.Listing()
  {
    hide StubsAlone, GroupsAscend, TripleIndex.StubsMatch, Rank, TripleIndex.From, TripleIndex.Upto;
    var k := x.spo.OffsetFor(j + 1);
    FromElements(x, k, t);
    UptoElements(x, |x.spo.nums|, t);
    if i :| 0 <= i < |x.spo.nums| && x.spo.nums[i] != 0 && x.TripleAt(i) == t {
      var m := x.SpAt(i);
      if m < j {
        LaterSubject(x, m, j);
      }
      CutAtPair(x, j, i);
    }
  }

  lemma {:induction false} RunsElements(x: TripleIndex, positions: seq<nat>, p: nat, t: Triple)
    requires x.Coherent() && p > 0
    requires forall i :: 0 <= i < |positions| ==> positions[i] < |x.sp.nums| && x.sp.nums[positions[i]] == p
    ensures t in Runs(x, positions) <==>
      t in x.Listing() && exists i :: 0 <= i < |positions| && InPair(x.SubjectAt(positions[i]), p, t)
  {
    hide TripleIndex.Coherent, RunAt, TripleIndex.Listing;
    CoherentShape(x);
    if positions != [] {
      var rest := positions[1..];
      assert forall i :: 0 <= i < |rest| ==> rest[i] == positions[i + 1];
      RunElements(x, positions[0], t);
      RunsElements(x, rest, p, t);
      if i :| 0 <= i < |positions| && InPair(x.SubjectAt(positions[i]), p, t) {
        assert i > 0 ==> InPair(x.SubjectAt(rest[i - 1]), p, t);
      }
      if i :| 0 <= i < |rest| && InPair(x.SubjectAt(rest[i]), p, t) {
        assert InPair(x.SubjectAt(positions[i + 1]), p, t);
      }
    }
  }

  lemma {:induction false} RunsIncrease(x: TripleIndex, positions: seq<nat>, p: nat)
    requires x.Coherent() && p > 0
    requires forall i :: 0 <= i < |positions| ==> positions[i] < |x.sp.nums| && x.sp.nums[positions[i]] == p
    requires forall i, j :: 0 <= i < j < |positions| ==> positions[i] < positions[j]
    ensures Increasing(BySubject, Runs(x, positions))
  {
    hide TripleIndex.Coherent, RunAt, TripleIndex.Listing;
    CoherentShape(x);
    if positions != [] {
      var rest := positions[1..];
      assert forall i :: 0 <= i < |rest| ==> rest[i] == positions[i + 1];
      RunsIncrease(x, rest, p);
      var first, later := RunAt(x, positions[0]), Runs(x, rest);
      RunElements(x, positions[0], Triple(0, 0, 0));
      forall i, j | 0 <= i < |first| && 0 <= j < |later| ensures Before(BySubject, first[i], later[j]) {
        RunElements(x, positions[0], first[i]);
        RunsElements(x, rest, p, later[j]);
        var m :| 0 <= m < |rest| && InPair(x.SubjectAt(rest[m]), p, later[j]);
        LaterSubject(x, positions[0], rest[m]);
      }
      IncreasingConcat(BySubject, first, later);
    }
  }

  /** Visiting the positions of a predicate one by one enumerates its triples in order. */
  lemma RunsAreFilter(x: TripleIndex, p: nat)
    requires x.Coherent() && p > 0
    ensures Runs(x, Positions(x.sp.nums, p, |x.sp.nums|)) == Filter(PredicateIs(p), x.Listing())
  {
    hide Runs, Filter, TripleIndex.Upto, Positions, StubsAlone, GroupsAscend, TripleIndex.StubsMatch,
      TripleIndex.SubjectsAscend, Rank;
    var positions := Positions(x.sp.nums, p, |x.sp.nums|);
    var runs, wanted := Runs(x, positions), Filter(PredicateIs(p), x.Listing());
    RunsIncrease(x, positions, p);
    ListingIncreases(x);
    FilterIncreases(BySubject, PredicateIs(p), x.Listing());
    forall t ensures t in runs <==> t in wanted {
      RunsElements(x, positions, p, t);
      FilterElement(PredicateIs(p), x.Listing(), t);
      if t in wanted {
        UptoElements(x, |x.spo.nums|, t);
        var k :| 0 <= k < |x.spo.nums| && x.spo.nums[k] != 0 && x.TripleAt(k) == t;
        PositionsComplete(x.sp.nums, p, |x.sp.nums|, x.SpAt(k));
        var i :| 0 <= i < |positions| && positions[i] == x.SpAt(k);
        assert InPair(x.SubjectAt(positions[i]), p, t);
      }
    }
    assert Elements(runs) == Elements(wanted);
    IncreasingIsUnique(BySubject, runs, wanted);
  }

  class PredicateIterator {
    const positions: seq<nat>
    const inner: SubjectIterator
    var predicatePos: nat
    var spBoundary: bool
    var peeked: Option<Triple>

    ghost predicate Valid()
      reads this, inner
    {
      && inner.Valid() && predicatePos <= |positions|
      && (forall i :: 0 <= i < |positions| ==> positions[i] < |inner.x.sp.nums|)
      && (!spBoundary ==> inner.Rest() != [])
    }

    /** What is left of the run the iterator is in. */
    ghost function Run(): seq<Triple>
      requires Valid()
      reads this, inner
    {
      if spBoundary then [] else HeadRun(inner.Rest())
    }

    ghost function Rest(): seq<Triple>
      requires Valid()
      reads this, inner
    {
      (if peeked.Some? then [peeked.value] else []) + Run() + Runs(inner.x, positions[predicatePos..])
    }

    constructor (x: TripleIndex, p: nat)
      requires x.Coherent()
      ensures Valid() && fresh(inner) && peeked == None
      ensures inner.x == x && Rest() == Runs(x, Positions(x.sp.nums, p, |x.sp.nums|))
    {
      positions := Positions(x.sp.nums, p, |x.sp.nums|);
      inner := new SubjectIterator(x);
      predicatePos, spBoundary, peeked := 0, true, None;
      new;
      assert positions[0..] == positions;
    }

    /** Moves to the next position of the predicate. */
    method NextPos() returns (more: bool)
      requires Valid() && spBoundary && peeked == None
      modifies this, inner
      ensures inner.Valid() && peeked == None && spBoundary && Valid()
      ensures more == (old(predicatePos) < |positions|)
      ensures !more ==> Rest() == old(Rest()) == []
      ensures more ==>
        inner.Rest() != [] && HeadRun(inner.Rest()) + Runs(inner.x, positions[predicatePos..]) == old(Rest())
    {
      hide TripleIndex.Coherent, HeadRun, Filter;
      if predicatePos >= |positions| {
        return false;
      }
      inner.SeekSpPos(positions[predicatePos]);
      SomethingFollows(inner.x, positions[predicatePos]);
      assert positions[predicatePos..][1..] == positions[predicatePos + 1..];
      predicatePos := predicatePos + 1;
      return true;
    }

    method Next() returns (r: Option<Triple>)
      requires Valid()
      modifies this, inner
      ensures Valid() && peeked == None
      ensures old(Rest()) == [] ==> r == None && Rest() == []
      ensures old(Rest()) != [] ==> r == Some(old(Rest())[0]) && Rest() == old(Rest())[1..]
    {
      hide TripleIndex.Coherent, Runs, Aligned, HeadRun;
      CoherentShape(inner.x);
      if peeked.Some? {
        r := peeked;
        peeked := None;
        assert old(Rest()) == [r.value] + Rest();
        return;
      }
      if spBoundary {
        // the end of the previous run: look up the next position
        var more := NextPos();
        if !more {
          return None;
        }
      }
      assert HeadRun(inner.Rest()) + Runs(inner.x, positions[predicatePos..]) == old(Rest());
      r := TakeFromRun();
      assert old(Rest()) == [r.value] + Rest();
    }

    /** Takes the next triple of the current run and looks ahead for the run's end. */
    method TakeFromRun() returns (r: Option<Triple>)
      requires Valid() && peeked == None && inner.Rest() != []
      modifies this`spBoundary, inner
      ensures Valid() && r == Some(old(inner.Rest())[0])
      ensures HeadRun(old(inner.Rest())) + Runs(inner.x, positions[predicatePos..]) == [r.value] + Rest()
    {
      hide TripleIndex.Coherent, Runs, Aligned, HeadRun, SubjectIterator.Rest;
      CoherentShape(inner.x);
      HeadRunStep(inner.Rest());
      ghost var run := inner.Rest();
      r := inner.Next();
      var next := inner.Peek();
      // a different subject or predicate next: move on to the next position afterwards
      spBoundary := next.None? || next.value.s != r.value.s || next.value.p != r.value.p;
      ghost var tail := Runs(inner.x, positions[predicatePos..]);
      assert HeadRun(run) == [r.value] + Run();
      assert [] + Run() + tail == Run() + tail && [r.value] + Run() + tail == [r.value] + (Run() + tail);
    }

    method Peek() returns (r: Option<Triple>)
      requires Valid()
      modifies this, inner
      ensures Valid() && Rest() == old(Rest())
      ensures r == if Rest() == [] then None else Some(Rest()[0])
    {
      hide Runs, HeadRun, SubjectIterator.Valid;
      peeked := Next();
      r := peeked;
      assert r.Some? ==> old(Rest()) == [r.value] + old(Rest())[1..];
    }
  }

  /** Taking the first triple of a run leaves the rest of the run, if the next one is alike. */
  lemma HeadRunStep(ts: seq<Triple>)
    requires ts != []
    ensures var rest := ts[1..];
      HeadRun(ts) == [ts[0]] + (if rest == [] || rest[0].s != ts[0].s || rest[0].p != ts[0].p then []
          else HeadRun(rest))
  {
    var rest, keep := ts[1..], PairIs(ts[0].s, ts[0].p);
    assert keep(ts[0]) && TakeWhile(keep, ts) == [ts[0]] + TakeWhile(keep, rest);
    if rest != [] && InPair(ts[0].s, ts[0].p, rest[0]) {
      TakeWhileSame(PairIs(ts[0].s, ts[0].p), PairIs(rest[0].s, rest[0].p), rest);
    }
  }

  lemma {:induction false} TakeWhileSame(a: Triple -> bool, b: Triple -> bool, ts: seq<Triple>)
    requires forall t :: a(t) == b(t)
    ensures TakeWhile(a, ts) == TakeWhile(b, ts)
  {
    if ts != [] {
      TakeWhileSame(a, b, ts[1..]);
    }
  }
}
