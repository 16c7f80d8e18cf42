/** The builder that turns an ordered stream of triples into a subject index. */
module TripleFileBuilders {
  import opened Sorting
  import opened Triples
  import opened AdjacencyLists
  import opened TripleIndexes

  /** The remembered last subject and predicate belong to the last triple of the index. */
  ghost predicate Tracks(x: TripleIndex, lastSubject: nat, lastPredicate: nat) {
    && x.Coherent()
    && (if x.sp.nums == [] then lastSubject == lastPredicate == 0 && x.spo.nums == [] else
          && lastSubject > 0 && lastPredicate > 0 && x.sp.nums[|x.sp.nums| - 1] == lastPredicate
          && x.spo.nums != [] && x.spo.nums[|x.spo.nums| - 1] > 0)
    && match x.subjects
       case None => x.sp.LeftCount() == lastSubject
       case Some(list) => list != [] ==> list[|list| - 1] == lastSubject
  }

  ghost function LastObject(x: TripleIndex): nat {
    if x.spo.nums == [] then 0 else x.spo.nums[|x.spo.nums| - 1]
  }

  /** The last triple of the listing, from the remembered parts. */
  lemma LastTriple(x: TripleIndex, lastSubject: nat, lastPredicate: nat)
    requires Tracks(x, lastSubject, lastPredicate)
    ensures if x.sp.nums == [] then x.Listing() == [] else
      x.Listing() != [] && x.Listing()[|x.Listing()| - 1] == Triple(lastSubject, lastPredicate, LastObject(x))
  {
    if x.sp.nums != [] {
      var n, m := |x.spo.nums|, |x.sp.nums|;
      assert Rank(x.spo.bits, n) == Rank(x.spo.bits, n - 1) + 1;
      assert Rank(x.sp.bits, m) == Rank(x.sp.bits, m - 1) + 1;
      assert x.SpAt(n - 1) == m - 1;
    }
  }

  /** The index after one accepted triple. */
  ghost function NextIndex(x: TripleIndex, lastSubject: nat, lastPredicate: nat, t: Triple): (y: TripleIndex)
    requires Tracks(x, lastSubject, lastPredicate) && t.IsReal()
    requires Before(BySubject, Triple(lastSubject, lastPredicate, LastObject(x)), t)
  {
    var m := |x.sp.nums|;
    if lastSubject == t.s && lastPredicate == t.p then
      x.(spo := Pushed(x.spo, m, m, t.o))
    else
      var subjects := if x.subjects.Some? && t.s != lastSubject then Some(x.subjects.value + [t.s]) else x.subjects;
      var left := if subjects.Some? then |subjects.value| else t.s;
      var sp := Pushed(x.sp, x.sp.LeftCount(), left, t.p);
      TripleIndex(subjects, sp, Pushed(x.spo, m, |sp.nums|, t.o))
  }

  /** The group of the accepted triple's subject. */
  function LeftOf(y: TripleIndex, t: Triple): nat {
    if y.subjects.Some? then |y.subjects.value| else t.s
  }

  lemma NextAppended(x: TripleIndex, lastSubject: nat, lastPredicate: nat, t: Triple)
    requires Tracks(x, lastSubject, lastPredicate) && t.IsReal()
    requires Before(BySubject, Triple(lastSubject, lastPredicate, LastObject(x)), t)
    ensures var y := NextIndex(x, lastSubject, lastPredicate, t); Appended(x, y, LeftOf(y, t), t.p, t.o)
    ensures var y := NextIndex(x, lastSubject, lastPredicate, t);
      y.subjects.Some? && y.subjects.value != [] ==> y.subjects.value[|y.subjects.value| - 1] == t.s
  {
    hide TripleIndex.Coherent, Pushed, Rank, TripleIndex.Listing;
    CoherentShape(x);
  }

  lemma NextStep(x: TripleIndex, lastSubject: nat, lastPredicate: nat, t: Triple)
    requires Tracks(x, lastSubject, lastPredicate) && t.IsReal()
    requires Before(BySubject, Triple(lastSubject, lastPredicate, LastObject(x)), t)
    ensures var y := NextIndex(x, lastSubject, lastPredicate, t);
      Tracks(y, t.s, t.p) && y.Listing() == x.Listing() + [t]
  {
    hide TripleIndex.Coherent, Pushed, Rank, TripleIndex.Listing, Appended, NextIndex, Tracks, LastObject, Before;
    NextAppended(x, lastSubject, lastPredicate, t);
    var y := NextIndex(x, lastSubject, lastPredicate, t);
    TracksCoherent(x, lastSubject, lastPredicate);
    AppendStep(x, y, LeftOf(y, t), t.p, t.o);
    AppendedEnds(x, y, LeftOf(y, t), t.p, t.o);
    CoherentShape(y);
    TracksNext(y, t);
  }

  lemma TracksCoherent(x: TripleIndex, lastSubject: nat, lastPredicate: nat)
    requires Tracks(x, lastSubject, lastPredicate)
    ensures x.Coherent() && x.Shape()
  {
    hide Rank, StubsAlone, GroupsAscend, TripleIndex.StubsMatch, TripleIndex.SubjectsAscend;
  }

  lemma TracksEnds(x: TripleIndex, lastSubject: nat, lastPredicate: nat)
    requires Tracks(x, lastSubject, lastPredicate)
    ensures x.Shape() && x.spo.LeftCount() == |x.sp.nums|
    ensures x.sp.LeftCount() == if x.subjects.Some? then |x.subjects.value| else lastSubject
    ensures x.sp.nums == [] <==> lastSubject == 0
    ensures x.sp.nums == [] <==> x.spo.nums == []
    ensures x.sp.nums == [] ==> lastPredicate == 0
    ensures x.sp.nums != [] ==> x.sp.nums[|x.sp.nums| - 1] == lastPredicate
  {
    hide Rank, StubsAlone, GroupsAscend, TripleIndex.StubsMatch, TripleIndex.SubjectsAscend;
  }

  lemma AppendedEnds(x: TripleIndex, y: TripleIndex, left: nat, p: nat, o: nat)
    requires Appended(x, y, left, p, o)
    ensures y.sp.nums != [] && y.sp.nums[|y.sp.nums| - 1] == p && y.spo.nums != [] && y.spo.nums[|y.spo.nums| - 1] == o
  {
    hide TripleIndex.Coherent, Rank;
  }

  lemma TracksNext(y: TripleIndex, t: Triple)
    requires y.Coherent() && y.Shape() && t.IsReal()
    requires y.sp.nums != [] && y.sp.nums[|y.sp.nums| - 1] == t.p && y.spo.nums != [] &&
      y.spo.nums[|y.spo.nums| - 1] == t.o
    requires y.sp.LeftCount() == LeftOf(y, t) && Rank(y.sp.bits, |y.sp.nums| - 1) == LeftOf(y, t) - 1
    requires y.subjects.Some? && y.subjects.value != [] ==> y.subjects.value[|y.subjects.value| - 1] == t.s
    ensures Tracks(y, t.s, t.p) && y.SubjectAt(|y.sp.nums| - 1) == t.s
  {
    hide TripleIndex.Coherent, Rank;
  }

  class TripleFileBuilder {
    var subjects: Option<seq<nat>>
    const spBuilder: AdjacencyListBuilder
    const spoBuilder: AdjacencyListBuilder
    var lastSubject: nat
    var lastPredicate: nat

    ghost predicate Valid()
      reads this, spBuilder, spoBuilder
    {
      && spBuilder != spoBuilder && spBuilder.Valid() && spoBuilder.Valid()
      && Tracks(Index(), lastSubject, lastPredicate)
    }

    /** The index that finalizing now would write. */
    ghost function Index(): TripleIndex
      reads this, spBuilder, spoBuilder
    {
      TripleIndex(subjects, spBuilder.View(), spoBuilder.View())
    }

    /** The triples added so far. */
    ghost function Contents(): seq<Triple>
      requires Valid()
      reads this, spBuilder, spoBuilder
    {
      Index().Listing()
    }

    constructor (sparse: bool)
      ensures Valid() && Contents() == [] && subjects == if sparse then Some([]) else None
      ensures fresh(spBuilder) && fresh(spoBuilder)
    {
      subjects := if sparse then Some([]) else None;
      spBuilder := new AdjacencyListBuilder();
      spoBuilder := new AdjacencyListBuilder();
      lastSubject, lastPredicate := 0, 0;
    }

    /** Adds `t` unless one of its ids is zero. The source panics on a triple that does not
        follow the last one. */
    method AddTriple(t: Triple)
      requires Valid() && Follows(Contents(), t)
      modifies this, spBuilder, spoBuilder
      ensures Valid() && subjects.Some? == old(subjects.Some?)
      ensures Contents() == old(Contents()) + (if Nonzero(t) then [t] else [])
    {
      hide Tracks, Pushed, Rank, TripleIndex.Listing, Follows, Before, TripleIndex.Coherent, AdjacencyList.LeftCount;
      if t.s == 0 || t.p == 0 || t.o == 0 {
        return;
      }
      ghost var y := Place(t);
      lastSubject := t.s;
      lastPredicate := t.p;
      assert Index() == y;
    }

    /** Pushes a real triple to the lists it has to be pushed to. */
    method Place(t: Triple) returns (ghost y: TripleIndex)
      requires Valid() && Nonzero(t) && Follows(Contents(), t)
      modifies this`subjects, spBuilder, spoBuilder
      ensures spBuilder.Valid() && spoBuilder.Valid() && Index() == y && subjects.Some? == old(subjects.Some?)
      ensures Tracks(y, t.s, t.p) && y.Listing() == old(Contents()) + [t]
    {
      hide Tracks, Pushed, Rank, TripleIndex.Listing, TripleIndex.Shape, Follows, Before, TripleIndex.Coherent,
        LastObject;
      y := Next(t);
      if lastSubject == t.s && lastPredicate == t.p {
        PushObject(t.o);
      } else {
        if subjects.Some? && t.s != lastSubject {
          subjects := Some(subjects.value + [t.s]);
        }
        var mappedSubject := if subjects.Some? then |subjects.value| else t.s;
        PushPair(mappedSubject, t.p, t.o);
      }
    }

    /** Only the second adjacency list has to be pushed to. */
    method PushObject(o: nat)
      requires spBuilder != spoBuilder && spBuilder.Valid() && spoBuilder.Valid() && spBuilder.nums != []
      requires spoBuilder.lastLeft == |spBuilder.nums| && spoBuilder.lastRight < o
      modifies spoBuilder
      ensures spoBuilder.Valid() && old(spoBuilder.View()).Valid() && old(spoBuilder.View()).nums != []
      ensures var m := |spBuilder.nums|; spoBuilder.View() == Pushed(old(spoBuilder.View()), m, m, o)
    {
      hide Pushed, Rank;
      var count := spBuilder.Count() + 1;
      spoBuilder.Push(count, o);
    }

    /** Both lists have to be pushed to. */
    method PushPair(left: nat, p: nat, o: nat)
      requires spBuilder != spoBuilder && spBuilder.Valid() && spoBuilder.Valid()
      requires spoBuilder.lastLeft == |spBuilder.nums|
      requires spBuilder.lastLeft < left || (spBuilder.lastLeft == left && left > 0 && spBuilder.lastRight < p)
      modifies spBuilder, spoBuilder
      ensures spBuilder.Valid() && spoBuilder.Valid() && old(spBuilder.View()).Valid() && old(spoBuilder.View()).Valid()
      ensures old(spBuilder.lastLeft) == left ==> old(spBuilder.View()).nums != []
      ensures spBuilder.View() == Pushed(old(spBuilder.View()), old(spBuilder.lastLeft), left, p)
      ensures spoBuilder.View() == Pushed(old(spoBuilder.View()), |old(spBuilder.View()).nums|,
        |spBuilder.View().nums|, o)
    {
      hide Pushed, Rank;
      spBuilder.Push(left, p);
      var count := spBuilder.Count() + 1;
      spoBuilder.Push(count, o);
    }

    lemma Next(t: Triple) returns (y: TripleIndex)
      requires Valid() && Nonzero(t) && Follows(Contents(), t)
      ensures lastSubject < t.s || (lastSubject == t.s &&
        (lastPredicate < t.p || (lastPredicate == t.p && spoBuilder.lastRight < t.o && spBuilder.nums != [])))
      ensures Before(BySubject, Triple(lastSubject, lastPredicate, LastObject(Index())), t)
      ensures y == NextIndex(Index(), lastSubject, lastPredicate, t)
      ensures Tracks(y, t.s, t.p) && y.Listing() == Contents() + [t]
      ensures spoBuilder.lastRight == LastObject(Index()) || spoBuilder.nums == []
      ensures spBuilder.nums != [] ==> spBuilder.lastRight == lastPredicate
      ensures spoBuilder.lastLeft == |spBuilder.nums| && spBuilder.lastLeft == Index().sp.LeftCount()
      ensures spBuilder.lastLeft == if subjects.Some? then |subjects.value| else lastSubject
      ensures spBuilder.nums == [] <==> lastSubject == 0
    {
      hide TripleIndex.Coherent, TripleIndex.Listing, Pushed, Rank, NextIndex, Tracks, TripleIndex.SubjectsAscend;
      TracksEnds(Index(), lastSubject, lastPredicate);
      LastTriple(Index(), lastSubject, lastPredicate);
      NextStep(Index(), lastSubject, lastPredicate, t);
      y := NextIndex(Index(), lastSubject, lastPredicate, t);
    }

    /** Adds a whole ordered batch; triples with a zero id are skipped. */
    method AddIdTriples(ts: seq<Triple>)
      requires Valid() && Contents() == [] && Increasing(BySubject, Filter(Nonzero, ts))
      modifies this, spBuilder, spoBuilder
      ensures Valid() && subjects.Some? == old(subjects.Some?)
      ensures Contents() == Filter(Nonzero, ts)
    {
      hide Tracks, Follows, Increasing, Filter, TripleFileBuilder.Valid, TripleFileBuilder.Contents,
        TripleFileBuilder.Index;
      var i := 0;
      assert Filter(Nonzero, ts[..0]) == [] by { FilterDropsAll(Nonzero, ts[..0]); }
      while i < |ts|
        invariant 0 <= i <= |ts| && Valid() && Contents() == Filter(Nonzero, ts[..i])
        invariant subjects.Some? == old(subjects.Some?)
      {
        NonzeroNext(ts, i);
        AddTriple(ts[i]);
        i := i + 1;
      }
      assert ts[..i] == ts;
    }

    method Finalize() returns (x: TripleIndex)
      requires Valid()
      ensures x == Index() && x.Coherent() && x.Listing() == Contents()
    {
      var sp := spBuilder.Finalize();
      var spo := spoBuilder.Finalize();
      x := TripleIndex(subjects, sp, spo);
    }
  }

  /** Encoding a strictly increasing, zero-free list and reading it back gives the list. */
  method BuildIndex(ts: seq<Triple>, sparse: bool) returns (x: TripleIndex)
    requires Increasing(BySubject, ts) && AllReal(ts)
    ensures x.Coherent() && x.Listing() == ts && x.subjects.Some? == sparse
  {
    var builder := new TripleFileBuilder(sparse);
    FilterKeepsAll(Nonzero, ts);
    builder.AddIdTriples(ts);
    x := builder.Finalize();
  }
}
