/** Asking a layer for the triples of predicate 0, which is no predicate: when that goes wrong. */
module PredicateZero {
  import opened Sorting
  import opened Triples
  import opened AdjacencyLists
  import opened TripleIndexes
  import opened SubjectIterators
  import opened PredicateIterators
  import opened ObjectIndexes
  import opened InternalLayers
  import opened LayerQueries
  import opened LayerFileBuilders
  import opened Dictionaries

  /** No triple has this subject, although a later subject is used. */
  ghost predicate Gap(ts: seq<Triple>, s: nat) {
    s > 0 && (forall t :: t in ts ==> t.s != s) && exists t :: t in ts && s < t.s
  }

  /** A subject with a triple has its group. */
  lemma SubjectHasGroup(x: TripleIndex, t: Triple)
    requires x.Coherent() && x.subjects.None? && t in x.Listing()
    ensures 1 <= t.s <= x.sp.LeftCount()
  {
    hide TripleIndex.Coherent, TripleIndex.Upto;
    CoherentShape(x);
    UptoElements(x, |x.spo.nums|, t);
    var k :| 0 <= k < |x.spo.nums| && x.spo.nums[k] != 0 && x.TripleAt(k) == t;
    LeftInRange(x.sp, x.SpAt(k));
  }

  /** A stub stands for a subject without triples. */
  lemma StubIsUnused(x: TripleIndex, j: nat, t: Triple)
    requires x.Coherent() && x.subjects.None? && j < |x.sp.nums| && x.sp.nums[j] == 0 && t in x.Listing()
    ensures t.s != x.SubjectAt(j)
  {
    hide TripleIndex.Upto, TripleIndex.SubjectsAscend, GroupsAscend, NoTrailingStub;
    UptoElements(x, |x.spo.nums|, t);
    var k :| 0 <= k < |x.spo.nums| && x.spo.nums[k] != 0 && x.TripleAt(k) == t;
    var i := x.SpAt(k);
    if i < j {
      RankMonotone(x.sp.bits, i, j);
    } else if i > j {
      RankMonotone(x.sp.bits, j + 1, i);
    }
  }

  /** A real pair has a triple. */
  lemma PairHasTriple(x: TripleIndex, j: nat) returns (t: Triple)
    requires x.Coherent() && j < |x.sp.nums| && x.sp.nums[j] != 0
    ensures t in x.Listing() && t.s == x.SubjectAt(j)
  {
    hide TripleIndex.SubjectsAscend, StubsAlone, GroupsAscend, NoTrailingStub;
    GroupNonempty(x.spo, j);
    var k := x.spo.OffsetFor(j + 1);
    assert x.SpAt(k) == j;
    UptoElements(x, |x.spo.nums|, x.TripleAt(k));
    t := x.TripleAt(k);
  }

  lemma LastIsReal(x: TripleIndex)
    requires x.Coherent() && x.sp.nums != []
    ensures x.sp.nums[|x.sp.nums| - 1] != 0
  {
  }

  /** A dense index has a stub exactly when a subject before a used one is not used. */
  lemma StubIsGap(x: TripleIndex)
    requires x.Coherent() && x.subjects.None?
    ensures 0 in x.sp.nums <==> exists s: nat :: Gap(x.Listing(), s)
  {
    hide TripleIndex.Coherent, TripleIndex.Listing, Rank;
    CoherentShape(x);
    if 0 in x.sp.nums {
      var j :| 0 <= j < |x.sp.nums| && x.sp.nums[j] == 0;
      var last := |x.sp.nums| - 1;
      LastIsReal(x);
      var t := PairHasTriple(x, last);
      RankMonotone(x.sp.bits, j, last);
      forall u | u in x.Listing() ensures u.s != x.SubjectAt(j) {
        StubIsUnused(x, j, u);
      }
      assert Gap(x.Listing(), x.SubjectAt(j));
    }
    if s: nat :| Gap(x.Listing(), s) {
      var t :| t in x.Listing() && s < t.s;
      SubjectHasGroup(x, t);
      GroupNonempty(x.sp, s - 1);
      var j := x.sp.OffsetFor(s);
      assert x.SubjectAt(j) == s;
      if x.sp.nums[j] != 0 {
        var u := PairHasTriple(x, j);
      }
    }
  }

  lemma SparseHasNoStub(x: TripleIndex)
    requires x.Coherent() && x.subjects.Some?
    ensures 0 !in x.sp.nums
  {
  }

  /** Asked for predicate 0, a layer answers wrongly exactly when some dense layer of its stack uses
      a subject and not an earlier one. */
  lemma HasStubIff(layer: InternalLayer)
    requires layer.Coherent()
    ensures HasStub(layer) <==> exists i, s: nat ::
      0 <= i < |layer.Indexes()| && DenseGap(layer.Indexes()[i].pos.x, s)
  {
    hide TripleIndex.Coherent, TripleIndex.Listing, Gap, ObjectIndex.Coherent;
    forall i | 0 <= i < |layer.Indexes()| ensures 0 in layer.Indexes()[i].pos.x.sp.nums <==>
      exists s: nat :: DenseGap(layer.Indexes()[i].pos.x, s)
    {
      IndexStub(layer.Indexes()[i]);
    }
  }

  ghost predicate DenseGap(x: TripleIndex, s: nat) {
    x.Shape() && x.subjects.None? && Gap(x.Listing(), s)
  }

  lemma IndexStub(index: LayerIndex)
    requires index.Coherent()
    ensures 0 in index.pos.x.sp.nums <==> exists s: nat :: DenseGap(index.pos.x, s)
  {
    hide TripleIndex.Coherent, TripleIndex.Listing, Gap;
    var x := index.pos.x;
    CoherentShape(x);
    if x.subjects.None? {
      StubIsGap(x);
      if 0 in x.sp.nums {
        var s: nat :| Gap(x.Listing(), s);
        assert DenseGap(x, s);
      }
    } else {
      SparseHasNoStub(x);
    }
  }

  /** A base layer whose only subject is 2: its answer for predicate 0 is wrong. */
  method StubExample() returns (layer: InternalLayer, out: seq<Triple>)
    ensures layer.Valid() && layer.TripleSet() == {Triple(2, 1, 1)}
    ensures !Answers(BySubject, PredicateIs(0), layer.TripleSet(), out)
  {
    hide InternalLayer.Valid, InternalLayer.TripleSet, Answers, ObjectIndex.Coherent, HasStub, TripleIndex.Listing;
    var only := Triple(2, 1, 1);
    SingleList(only);
    var oi := BuildIndexes([only], false);
    layer := Base(0, Dictionary([], [], [], IdMap(None), IdMap(None)), oi);
    BaseLayerMeans(layer);
    IndexShape(oi);
    StubThere(layer, only);
    out := TriplesP(layer, 0);
  }

  lemma IndexShape(oi: ObjectIndex)
    requires oi.Coherent()
    ensures oi.x.Shape()
  {
    hide ObjectIndex.Entries;
  }

  lemma StubThere(layer: InternalLayer, only: Triple)
    requires layer.Base? && layer.triples.Coherent() && only.s == 2
    requires layer.triples.x.subjects.None? && layer.triples.x.Shape() && layer.triples.x.Listing() == [only]
    ensures HasStub(layer)
  {
    hide TripleIndex.Coherent, TripleIndex.Listing, ObjectIndex.Entries;
    var x := layer.triples.x;
    assert only in x.Listing() && Gap(x.Listing(), 1);
    StubIsGap(x);
    assert layer.Indexes()[0].pos.x == x;
  }
}
