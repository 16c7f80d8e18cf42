/** Stack iterators over parts of a layer stack: what they report, and that only the net
    change matters, however the parts are ordered or grouped. */
module NetOfStacks {
  import opened Sorting
  import opened Triples
  import opened StackSemantics
  import opened TripleIndexes
  import opened SubjectIterators
  import opened ObjectIndexes
  import opened LayerIterators
  import opened MergedIterators
  import opened InternalLayers
  import opened Queries
  import opened NetIterators

  /** The nearest layer named `name` strictly below `layer`. */
  ghost function Ancestor(layer: InternalLayer, name: Name): (r: Option<InternalLayer>)
    ensures r.Some? ==> r.value.Size() < layer.Size()
    decreases layer.Size()
  {
    match layer.ImmediateParent()
    case None => None
    case Some(p) => if p.LayerName() == name then Some(p) else Ancestor(p, name)
  }

  /** `walk` leads from the layer's parent down, parent by parent, to the first layer named `name`. */
  ghost predicate LeadsTo(layer: InternalLayer, name: Name, walk: seq<InternalLayer>) {
    && walk != [] && layer.ImmediateParent() == Some(walk[0]) && walk[|walk| - 1].LayerName() == name
    && (forall k :: 0 < k < |walk| ==> walk[k - 1].ImmediateParent() == Some(walk[k]))
    && (forall k :: 0 <= k < |walk| - 1 ==> walk[k].LayerName() != name)
  }

  /** The ancestor is where the walk leads, if there is one. */
  lemma {:induction false} AncestorIs(layer: InternalLayer, name: Name, walk: seq<InternalLayer>)
    requires LeadsTo(layer, name, walk)
    ensures Ancestor(layer, name) == Some(walk[|walk| - 1])
    decreases |walk|
  {
    if |walk| > 1 {
      AncestorIs(walk[0], name, walk[1..]);
    }
  }

  lemma {:induction false} AncestorHasWalk(layer: InternalLayer, name: Name) returns (walk: seq<InternalLayer>)
    requires Ancestor(layer, name).Some?
    ensures LeadsTo(layer, name, walk) && walk[|walk| - 1] == Ancestor(layer, name).value
    decreases layer.Size()
  {
    var p := layer.ImmediateParent().value;
    if p.LayerName() == name {
      walk := [p];
    } else {
      var rest := AncestorHasWalk(p, name);
      walk := [p] + rest;
    }
  }

  /* ---- counting streams ---- */

  lemma {:induction false} IncreasingCount(ord: Order, ts: seq<Triple>, t: Triple)
    requires Increasing(ord, ts)
    ensures multiset(ts)[t] == if t in ts then 1 else 0
  {
    DistinctCount(ts, t);
    assert t in ts <==> t in multiset(ts);
  }

  lemma WholeLayer(oi: ObjectIndex, rest: seq<Triple>)
    requires oi.Coherent() && Yields(Subjects(0), Some(oi), rest)
    ensures rest == oi.x.Listing() && Streams(BySubject, Everything, rest)
  {
    hide TripleIndex.Listing, TripleIndex.Coherent, Filter;
    FilterKeepsAll(SubjectFrom(0), oi.x.Listing());
    ListingIncreases(oi.x);
  }

  /** Counted over the streams of some layers, each triple occurs once per layer adding it, and
      once per layer removing it. */
  lemma {:induction false} StreamCounts(indexes: seq<LayerIndex>, pos: seq<seq<Triple>>, neg: seq<seq<Triple>>,
      t: Triple)
    requires AllCoherent(indexes) && AllYield(Subjects(0), indexes, pos, neg)
    ensures Bag(pos)[t] == CountAdditions(DeltasOf(indexes), t)
    ensures Bag(neg)[t] == CountRemovals(DeltasOf(indexes), t)
    ensures AllStream(BySubject, Everything, pos) && AllStream(BySubject, Everything, neg)
  {
    hide LayerIndex.Coherent, LayerIndex.AsDelta, Yields, Streams, Increasing, AllCoherent, AllYield, AllStream;
    YieldParts(indexes, pos, neg);
    if indexes != [] {
      StreamCounts(indexes[1..], pos[1..], neg[1..], t);
      DeltasTail(indexes);
      OneLayerCounts(indexes[0], pos[0], neg[0], t);
      StreamsCons(pos);
      StreamsCons(neg);
    } else {
      NoStreams(pos);
      NoStreams(neg);
    }
  }

  lemma YieldParts(indexes: seq<LayerIndex>, pos: seq<seq<Triple>>, neg: seq<seq<Triple>>)
    requires AllCoherent(indexes) && AllYield(Subjects(0), indexes, pos, neg)
    ensures |pos| == |neg| == |indexes|
    ensures indexes != [] ==>
      indexes[0].Coherent() && Yields(Subjects(0), Some(indexes[0].pos), pos[0]) &&
      Yields(Subjects(0), indexes[0].neg, neg[0])
    ensures indexes != [] ==> AllCoherent(indexes[1..]) && AllYield(Subjects(0), indexes[1..], pos[1..], neg[1..])
  {
    hide LayerIndex.Coherent, Yields;
  }

  lemma DeltasTail(indexes: seq<LayerIndex>)
    requires AllCoherent(indexes) && indexes != [] && AllCoherent(indexes[1..]) && indexes[0].Coherent()
    ensures DeltasOf(indexes)[1..] == DeltasOf(indexes[1..]) && DeltasOf(indexes)[0] == indexes[0].AsDelta()
  {
    hide LayerIndex.Coherent, LayerIndex.AsDelta;
  }

  lemma StreamsCons(rests: seq<seq<Triple>>)
    requires rests != [] && Streams(BySubject, Everything, rests[0]) && AllStream(BySubject, Everything, rests[1..])
    ensures AllStream(BySubject, Everything, rests)
  {
    hide Streams;
    forall i | 0 <= i < |rests| ensures Streams(BySubject, Everything, rests[i]) {
      if i > 0 { assert rests[i] == rests[1..][i - 1]; }
    }
  }

  lemma NoStreams(rests: seq<seq<Triple>>)
    ensures rests == [] ==> AllStream(BySubject, Everything, rests)
  {
  }

  lemma OneLayerCounts(index: LayerIndex, pos: seq<Triple>, neg: seq<Triple>, t: Triple)
    requires index.Coherent() && Yields(Subjects(0), Some(index.pos), pos) && Yields(Subjects(0), index.neg, neg)
    ensures multiset(pos)[t] == (if t in index.AsDelta().pos then 1 else 0)
    ensures multiset(neg)[t] == (if t in index.AsDelta().neg then 1 else 0)
    ensures Streams(BySubject, Everything, pos) && Streams(BySubject, Everything, neg)
  {
    hide TripleIndex.Coherent, TripleIndex.Listing, Yields;
    WholeLayer(index.pos, pos);
    ListingIncreases(index.pos.x);
    IncreasingCount(BySubject, pos, t);
    if index.neg.Some? {
      WholeLayer(index.neg.value, neg);
      ListingIncreases(index.neg.value.x);
      IncreasingCount(BySubject, neg, t);
    } else {
      AbsentYieldsNothing(Subjects(0), neg);
    }
  }

  /* ---- the layers between a layer and its ancestor ---- */

  /** The queue holds exactly the difference between two sets of triples. */
  ghost predicate IsNet(pos: seq<seq<Triple>>, neg: seq<seq<Triple>>, top: set<Triple>, bottom: set<Triple>) {
    forall t :: Net(pos, neg, t) == Has(top, t) - Has(bottom, t)
  }

  lemma AncestorParts(layer: InternalLayer, ancestor: InternalLayer, above: seq<LayerIndex>)
    requires layer.Valid() && AllCoherent(above) && layer.Indexes() == above + ancestor.Indexes()
    ensures ancestor.Valid() && layer.Deltas() == DeltasOf(above) + ancestor.Deltas()
  {
    hide LayerIndex.Coherent, LayerIndex.AsDelta, WellFormed, Fold;
    assert forall i :: 0 <= i < |ancestor.Indexes()| ==> ancestor.Indexes()[i] == layer.Indexes()[|above| + i];
    assert layer.Deltas() == DeltasOf(above) + ancestor.Deltas();
    WellFormedSuffix(DeltasOf(above), ancestor.Deltas());
  }

  /** Streams over exactly the layers between `layer` and `ancestor` hold their net difference. */
  lemma NetDifference(layer: InternalLayer, ancestor: InternalLayer, above: seq<LayerIndex>, pos: seq<seq<Triple>>,
      neg: seq<seq<Triple>>)
    requires layer.Valid() && layer.Indexes() == above + ancestor.Indexes()
    requires AllCoherent(above) && AllYield(Subjects(0), above, pos, neg)
    ensures ancestor.Valid()
    ensures IsNet(pos, neg, layer.TripleSet(), ancestor.TripleSet())
    ensures Balanced(pos, neg)
  {
    hide AllCoherent, AllYield, Fold, AllStream, WellFormed, Has, Bag, InternalLayer.Indexes, InternalLayer.Deltas,
      DeltasOf;
    AncestorParts(layer, ancestor, above);
    forall t ensures Net(pos, neg, t) == Has(layer.TripleSet(), t) - Has(ancestor.TripleSet(), t) {
      StreamCounts(above, pos, neg, t);
      NetChange(DeltasOf(above), ancestor.Deltas(), t);
    }
    StreamCounts(above, pos, neg, Triple(0, 0, 0));
    NetIsBounded(pos, neg, layer.TripleSet(), ancestor.TripleSet());
  }

  lemma NetIsBounded(pos: seq<seq<Triple>>, neg: seq<seq<Triple>>, top: set<Triple>, bottom: set<Triple>)
    requires IsNet(pos, neg, top, bottom)
    ensures forall t :: -1 <= Net(pos, neg, t) <= 1
  {
    hide Net;
    forall t ensures -1 <= Net(pos, neg, t) <= 1 {
      assert Net(pos, neg, t) == Has(top, t) - Has(bottom, t);
    }
  }

  /** The iterator over the layers above the nearest ancestor called `parentName`; an error when
      there is no such ancestor. */
  method FromLayerStack(layer: InternalLayer, parentName: Name) returns (r: Option<StackIterator>)
    requires layer.Valid()
    ensures r.None? <==> Ancestor(layer, parentName).None?
    ensures r.Some? ==> r.value.Valid() && fresh(Footprint(r.value.positives)) && fresh(Footprint(r.value.negatives))
    ensures r.Some? ==> Ancestor(layer, parentName).value.Valid()
    ensures r.Some? ==>
      IsNet(Rests(r.value.positives), Rests(r.value.negatives), layer.TripleSet(),
      Ancestor(layer, parentName).value.TripleSet())
  {
    hide Yields, AllYield, AllCoherent, LayerIndex.Coherent, InternalLayer.TripleSet, WellFormed, AllValid, Rests,
      LayerIterator.Repr, Footprint, Net, Balanced, Has;
    var kind := Subjects(0);
    NothingYet(kind);
    ghost var done: seq<LayerIndex> := [];
    var positives, negatives := PushLayer(layer, layer, done, [], []);
    done := done + [LayerIndex(layer.Additions(), layer.Removals())];
    var l := layer.ImmediateParent();
    while l.Some? && l.value.LayerName() != parentName
      invariant Apart(positives, negatives) && fresh(Footprint(positives)) && fresh(Footprint(negatives))
      invariant layer.Indexes() == done + (if l.Some? then l.value.Indexes() else [])
      invariant AllCoherent(done) && AllYield(kind, done, Rests(positives), Rests(negatives))
      invariant Ancestor(layer, parentName) == match l case None => None case Some(p) => if p.LayerName() ==
        parentName then Some(p) else Ancestor(p, parentName)
      decreases if l.Some? then 1 + l.value.Size() else 0
    {
      positives, negatives := PushLayer(layer, l.value, done, positives, negatives);
      done := done + [LayerIndex(l.value.Additions(), l.value.Removals())];
      l := l.value.ImmediateParent();
    }
    if l.None? {
      return None;
    }
    NetDifference(layer, l.value, done, Rests(positives), Rests(negatives));
    var it := FromParts(positives, negatives);
    r := Some(it);
  }

  /** Adds the iterators of one more layer. */
  method AddParts(pos: ObjectIndex, neg: Option<ObjectIndex>, ghost done: seq<LayerIndex>,
      positives: seq<LayerIterator>, negatives: seq<LayerIterator>)
    returns (positives': seq<LayerIterator>, negatives': seq<LayerIterator>)
    requires LayerIndex(pos, neg).Coherent()
    requires Apart(positives, negatives) && AllCoherent(done) &&
      AllYield(Subjects(0), done, Rests(positives), Rests(negatives))
    ensures Apart(positives', negatives')
    ensures forall o :: o in Footprint(positives') ==> o in Footprint(positives) || fresh(o)
    ensures forall o :: o in Footprint(negatives') ==> o in Footprint(negatives) || fresh(o)
    ensures var done' := done + [LayerIndex(pos, neg)];
      AllCoherent(done') && AllYield(Subjects(0), done', Rests(positives'), Rests(negatives'))
  {
    hide Yields, AllYield, AllCoherent, LayerIndex.Coherent, AllValid, Rests, LayerIterator.Repr, Footprint;
    ghost var index := LayerIndex(pos, neg);
    ghost var before, after := Rests(positives), Rests(negatives);
    CoherentParts(index);
    positives' := Extend(positives, negatives, Subjects(0), Some(pos));
    ApartSymmetric(positives', negatives);
    negatives' := Extend(negatives, positives', Subjects(0), neg);
    ApartSymmetric(negatives', positives');
    ghost var p :| Yields(Subjects(0), Some(index.pos), p) && Rests(positives') == before + [p];
    ghost var n :| Yields(Subjects(0), index.neg, n) && Rests(negatives') == after + [n];
    YieldMore(Subjects(0), done, before, after, index, p, n);
  }

  /** Adds the iterators of one more layer of the stack. */
  method PushLayer(layer: InternalLayer, l: InternalLayer, ghost done: seq<LayerIndex>, positives: seq<LayerIterator>,
      negatives: seq<LayerIterator>)
    returns (positives': seq<LayerIterator>, negatives': seq<LayerIterator>)
    requires layer.Coherent() && layer.Indexes() == done + l.Indexes()
    requires Apart(positives, negatives) && AllCoherent(done) &&
      AllYield(Subjects(0), done, Rests(positives), Rests(negatives))
    ensures Apart(positives', negatives')
    ensures forall o :: o in Footprint(positives') ==> o in Footprint(positives) || fresh(o)
    ensures forall o :: o in Footprint(negatives') ==> o in Footprint(negatives) || fresh(o)
    ensures var done' := done + [LayerIndex(l.Additions(), l.Removals())];
      && AllCoherent(done') && AllYield(Subjects(0), done', Rests(positives'), Rests(negatives'))
      && layer.Indexes() == done' + (match l.ImmediateParent() case None => [] case Some(p) => p.Indexes())
  {
    hide Yields, AllYield, AllCoherent, LayerIndex.Coherent, AllValid, Rests, LayerIterator.Repr, Footprint;
    IndexesSplit(layer, done, l);
    positives', negatives' := AddParts(l.Additions(), l.Removals(), done, positives, negatives);
  }

  lemma CoherentParts(index: LayerIndex)
    requires index.Coherent()
    ensures index.pos.Coherent() && (index.neg.Some? ==> index.neg.value.Coherent())
  {
  }

  /** Any parts in order and in balance make a stack iterator. */
  method FromParts(positives: seq<LayerIterator>, negatives: seq<LayerIterator>) returns (it: StackIterator)
    requires Apart(positives, negatives) && Balanced(Rests(positives), Rests(negatives))
    ensures it.Valid() && it.positives == positives && it.negatives == negatives
    ensures Rests(positives) == old(Rests(positives)) && Rests(negatives) == old(Rests(negatives))
  {
    hide Balanced, AllValid, Rests, LayerIterator.Valid, LayerIterator.Rest;
    it := new StackIterator(positives, negatives);
    UnmovedAll(positives);
    UnmovedAll(negatives);
  }

  /** What an iterator over the layers above an ancestor reports: each triple only the top has
      once as an addition, each triple only the ancestor has once as a removal, in order. */
  method ChangesUpto(layer: InternalLayer, parentName: Name) returns (r: Option<seq<Change>>)
    requires layer.Valid()
    ensures r.None? <==> Ancestor(layer, parentName).None?
    ensures r.Some? ==> Ancestor(layer, parentName).value.Valid()
    ensures r.Some? ==> IsDifference(r.value, layer.TripleSet(), Ancestor(layer, parentName).value.TripleSet())
  {
    hide Net, Rests, AllValid, Balanced, LayerIterator.Repr, Footprint, InternalLayer.Valid, InternalLayer.TripleSet,
      ReportOf, IsDifference, Has;
    var it := FromLayerStack(layer, parentName);
    if it.None? {
      return None;
    }
    ghost var pos, neg := Rests(it.value.positives), Rests(it.value.negatives);
    var out := CollectChanges(it.value);
    DifferenceOfNet(out, pos, neg, layer.TripleSet(), Ancestor(layer, parentName).value.TripleSet());
    r := Some(out);
  }

  /** `out` lists the differences between `top` and `bottom`, in strictly increasing order. */
  ghost predicate IsDifference(out: seq<Change>, top: set<Triple>, bottom: set<Triple>) {
    && (forall i, j :: 0 <= i < j < |out| ==> Before(BySubject, out[i].1, out[j].1))
    && (forall t :: (Addition, t) in out <==> t in top - bottom)
    && (forall t :: (Removal, t) in out <==> t in bottom - top)
  }

  lemma DifferenceOfNet(out: seq<Change>, pos: seq<seq<Triple>>, neg: seq<seq<Triple>>, top: set<Triple>,
      bottom: set<Triple>)
    requires ReportOf(out, pos, neg) && IsNet(pos, neg, top, bottom)
    ensures IsDifference(out, top, bottom)
  {
    hide Net;
    forall t ensures (Addition, t) in out <==> t in top - bottom {
      assert Net(pos, neg, t) == Has(top, t) - Has(bottom, t);
    }
    forall t ensures (Removal, t) in out <==> t in bottom - top {
      assert Net(pos, neg, t) == Has(top, t) - Has(bottom, t);
    }
  }

  /* ---- regrouping the parts ---- */

  lemma {:induction false} BagConcat(a: seq<seq<Triple>>, b: seq<seq<Triple>>)
    ensures Bag(a + b) == Bag(a) + Bag(b)
  {
    if a == [] {
      assert a + b == b;
    } else {
      assert (a + b)[1..] == a[1..] + b;
      BagConcat(a[1..], b);
    }
  }

  lemma {:induction false} BagPermuted(a: seq<seq<Triple>>, b: seq<seq<Triple>>)
    requires multiset(a) == multiset(b)
    ensures Bag(a) == Bag(b)
  {
    hide Bag;
    if a == [] {
      assert |multiset(b)| == |b|;
      assert a == b;
    } else {
      assert a[0] in multiset(b);
      var i :| 0 <= i < |b| && b[i] == a[0];
      WithoutOne(a, 0);
      WithoutOne(b, i);
      assert a[..0] + a[1..] == a[1..];
      BagPermuted(a[1..], b[..i] + b[i + 1..]);
    }
  }

  lemma WithoutOne(b: seq<seq<Triple>>, i: nat)
    requires i < |b|
    ensures multiset(b[..i] + b[i + 1..]) == multiset(b) - multiset{b[i]}
    ensures Bag(b) == Bag(b[..i] + b[i + 1..]) + multiset(b[i])
  {
    hide Bag;
    var front, back := b[..i], b[i + 1..];
    assert b == front + ([b[i]] + back);
    BagConcat(front, [b[i]] + back);
    BagConcat(front, back);
    BagCons(b[i], back);
  }

  lemma BagCons(head: seq<Triple>, rest: seq<seq<Triple>>)
    ensures Bag([head] + rest) == multiset(head) + Bag(rest)
  {
    assert ([head] + rest)[1..] == rest;
  }

  /** Merging stack iterators adds up their net changes. */
  lemma MergeAddsUp(pos: seq<seq<Triple>>, neg: seq<seq<Triple>>, pos': seq<seq<Triple>>, neg': seq<seq<Triple>>,
      t: Triple)
    ensures Net(pos + pos', neg + neg', t) == Net(pos, neg, t) + Net(pos', neg', t)
  {
    BagConcat(pos, pos');
    BagConcat(neg, neg');
  }

  /** Permuting the parts of a stack iterator does not change its report. */
  lemma PermutedReport(a: seq<Change>, b: seq<Change>, pos: seq<seq<Triple>>, neg: seq<seq<Triple>>,
      pos': seq<seq<Triple>>, neg': seq<seq<Triple>>)
    requires multiset(pos) == multiset(pos') && multiset(neg) == multiset(neg')
    requires ReportOf(a, pos, neg) && ReportOf(b, pos', neg')
    ensures a == b
  {
    BagPermuted(pos, pos');
    BagPermuted(neg, neg');
    ReportIsUnique(a, b, pos, neg, pos', neg');
  }
}
