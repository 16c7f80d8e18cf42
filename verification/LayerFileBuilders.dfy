/** Writing the files of a base or child layer from a dictionary and ordered id triples. */
module LayerFileBuilders {
  import opened Sorting
  import opened Triples
  import opened StackSemantics
  import opened AdjacencyLists
  import opened TripleIndexes
  import opened TripleFileBuilders
  import opened ObjectIndexes
  import opened Dictionaries
  import opened InternalLayers
  import opened StringTriples

  const SINGLE_SORT_LIMIT: nat := 0x8000_0000

  /** Builds the subject and object indexes of an ordered batch; zero triples are skipped. */
  method BuildIndexes(ts: seq<Triple>, sparse: bool) returns (oi: ObjectIndex)
    requires Increasing(BySubject, Filter(Nonzero, ts))
    ensures oi.Coherent() && oi.x.Listing() == Filter(Nonzero, ts)
    ensures oi.x.subjects.Some? == sparse && oi.objects.Some? == sparse
  {
    hide TripleIndex.Listing, TripleIndex.Coherent, ObjectIndex.Coherent, Filter, Increasing;
    var builder := new TripleFileBuilder(sparse);
    builder.AddIdTriples(ts);
    var x := builder.Finalize();
    oi := BuildObjectIndex(x, sparse, SINGLE_SORT_LIMIT);
  }

  /** A layer as its files are written: in a base layer subjects and objects are counted through,
      in a child layer those in use are listed. */
  predicate AsWritten(layer: InternalLayer) {
    match layer
    case Base(_, _, triples) => triples.x.subjects.None? && triples.objects.None?
    case Child(_, _, _, pos, neg) =>
      pos.x.subjects.Some? && pos.objects.Some? && neg.x.subjects.Some? && neg.objects.Some?
    case Rollup(_, _, _) => false
  }

  /** The files of a base layer that can be loaded. */
  ghost predicate BaseFiles(layer: InternalLayer) {
    layer.Base? && Grounded(layer) && AsWritten(layer)
  }

  lemma BaseLayerMeans(layer: InternalLayer)
    requires layer.Base? && layer.triples.Coherent()
    ensures layer.Valid() && layer.TripleSet() == Elements(layer.triples.x.Listing())
  {
    hide ObjectIndex.Coherent, TripleIndex.Listing;
    assert layer.Indexes() == [LayerIndex(layer.triples, None)];
    assert layer.Coherent();
    assert layer.Deltas()[1..] == [];
    OnTop(layer.Deltas());
  }

  lemma ChildLayerMeans(layer: InternalLayer)
    requires layer.Child? && layer.parent.Valid() && layer.pos.Coherent() && layer.neg.Coherent()
    requires layer.pos.x.subjects.Some? && layer.neg.x.subjects.Some?
    requires Elements(layer.pos.x.Listing()) !! layer.parent.TripleSet()
    requires Elements(layer.neg.x.Listing()) <= layer.parent.TripleSet()
    ensures layer.Valid()
    ensures layer.TripleSet() == layer.parent.TripleSet() - Elements(layer.neg.x.Listing()) + Elements(layer.pos.x.Listing())
  {
    hide ObjectIndex.Coherent, TripleIndex.Listing, WellFormed, Fold, Elements;
    var index := LayerIndex(layer.pos, Some(layer.neg));
    assert layer.Indexes() == [index] + layer.parent.Indexes();
    assert forall i :: 0 < i < |layer.Indexes()| ==> layer.Indexes()[i] == layer.parent.Indexes()[i - 1];
    assert AllCoherent(layer.Indexes()) by {
      forall i | 0 <= i < |layer.Indexes()| ensures layer.Indexes()[i].Coherent() {
        if i > 0 { assert layer.parent.Indexes()[i - 1].Coherent(); }
      }
    }
    assert layer.Deltas()[1..] == layer.parent.Deltas();
    OnTop(layer.Deltas());
  }

  lemma OnTop(stack: Stack)
    requires stack != [] && WellFormed(stack[1..]) && stack[0].pos !! Fold(stack[1..]) &&
      stack[0].neg <= Fold(stack[1..])
    ensures WellFormed(stack) && Fold(stack) == Fold(stack[1..]) - stack[0].neg + stack[0].pos
  {
  }

  lemma SingleList(t: Triple)
    requires Nonzero(t)
    ensures Filter(Nonzero, [t]) == [t] && Increasing(BySubject, [t]) && Elements([t]) == {t}
  {
  }

  /** A base layer holding exactly the nonzero triples of the batch. */
  method BuildBaseLayer(name: Name, d: Dictionary, ts: seq<Triple>) returns (layer: InternalLayer)
    requires Increasing(BySubject, Filter(Nonzero, ts))
    ensures layer.Base? && layer.name == name && layer.dict == d && AsWritten(layer)
    ensures layer.Valid() && layer.TripleSet() == Elements(Filter(Nonzero, ts))
  {
    hide Filter, Increasing, InternalLayer.Valid, InternalLayer.TripleSet, ObjectIndex.Coherent, TripleIndex.Listing;
    var oi := BuildIndexes(ts, false);
    layer := Base(name, d, oi);
    BaseLayerMeans(layer);
  }

  /** A child layer adding and removing exactly the nonzero triples of the two batches. */
  method BuildChildLayer(name: Name, parent: InternalLayer, d: Dictionary, pos: seq<Triple>,
      neg: seq<Triple>) returns (layer: InternalLayer)
    requires Increasing(BySubject, Filter(Nonzero, pos)) && Increasing(BySubject, Filter(Nonzero, neg))
    requires parent.Valid() && Elements(Filter(Nonzero, pos)) !! parent.TripleSet() &&
      Elements(Filter(Nonzero, neg)) <= parent.TripleSet()
    ensures layer.Child? && layer.name == name && layer.parent == parent && layer.dict == d && AsWritten(layer)
    ensures layer.Valid()
    ensures layer.TripleSet() == parent.TripleSet() - Elements(Filter(Nonzero, neg)) + Elements(Filter(Nonzero, pos))
    ensures layer.pos.Coherent() && layer.pos.x.Listing() == Filter(Nonzero, pos)
    ensures layer.neg.Coherent() && layer.neg.x.Listing() == Filter(Nonzero, neg)
  {
    hide Filter, Increasing, InternalLayer.Valid, InternalLayer.TripleSet, ObjectIndex.Coherent, TripleIndex.Listing,
      Elements;
    var posIndex := BuildIndexes(pos, true);
    var negIndex := BuildIndexes(neg, true);
    layer := Child(name, parent, d, posIndex, negIndex);
    ChildLayerMeans(layer);
  }
}
