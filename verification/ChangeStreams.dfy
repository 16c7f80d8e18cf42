/** The changes between a layer and its ancestor, read from disk, from memory or partly from
    each: whatever the parts, the merged iterator reports the net difference. */
module ChangeStreams {
  import opened Sorting
  import opened Triples
  import opened StackSemantics
  import opened TripleIndexes
  import opened ObjectIndexes
  import opened LayerIterators
  import opened MergedIterators
  import opened Dictionaries
  import opened InternalLayers
  import opened IdTranslation
  import opened StringTriples
  import opened Queries
  import opened NetIterators
  import opened NetOfStacks
  import opened RollupBounds
  import opened Stores

  /* ---- changes from disk ---- */

  lemma RawParts(disk: Disk, n: Name)
    requires disk.Sound() && n in disk.layers
    ensures disk.Rooted() && disk.RootedAt(n) && disk.Raw(n).Valid()
    ensures var f := disk.layers[n];
      disk.Raw(n).Additions() == FileAdditions(f) && disk.Raw(n).Removals() == FileRemovals(f)
    ensures disk.ParentOf(n).None? ==> disk.Raw(n).ImmediateParent() == None
    ensures disk.ParentOf(n).Some? ==>
      disk.ParentOf(n).value in disk.layers && disk.Raw(n).ImmediateParent() == Some(disk.Raw(disk.ParentOf(n).value))
    ensures disk.Raw(n).Dict() == disk.layers[n].dict
  {
    hide InternalLayer.Valid, InternalLayer.TripleSet, KnowsAll, Named;
    SoundAt(disk, n);
  }

  function FileAdditions(f: Files): ObjectIndex {
    if f.BaseFiles? then f.triples else f.pos
  }

  function FileRemovals(f: Files): Option<ObjectIndex> {
    if f.BaseFiles? then None else Some(f.neg)
  }

  lemma OneMoreIndex(whole: InternalLayer, done: seq<LayerIndex>, l: InternalLayer)
    requires whole.Valid() && whole.Indexes() == done + l.Indexes()
    ensures LayerIndex(l.Additions(), l.Removals()).Coherent()
    ensures whole.Indexes() == done + [LayerIndex(l.Additions(),
      l.Removals())] + (match l.ImmediateParent() case None => [] case Some(p) => p.Indexes())
  {
    hide LayerIndex.Coherent, WellFormed;
    IndexesSplit(whole, done, l);
  }

  /** The changes of the layers on disk from `name` down to, and without, `upto`
      (`layer_changes_upto`). The source reverses the parts at the end, which makes no difference
      to what they report. */
  method DiskChanges(disk: Disk, name: Name, upto: Name) returns (r: Option<StackIterator>)
    requires disk.Sound() && name in disk.layers && upto in disk.layers
    ensures r.None? <==> name != upto && Chain(disk, name, upto).None?
    ensures r.Some? ==> r.value.Valid() && fresh(Footprint(r.value.positives)) && fresh(Footprint(r.value.negatives))
    ensures r.Some? ==> disk.Raw(name).Valid() && disk.Raw(upto).Valid()
    ensures r.Some? ==>
      IsNet(Rests(r.value.positives), Rests(r.value.negatives), disk.Raw(name).TripleSet(),
      disk.Raw(upto).TripleSet())
  {
    hide Disk.Sound, Disk.Rooted, Yields, AllYield, AllCoherent, LayerIndex.Coherent, InternalLayer.Valid,
      InternalLayer.TripleSet, WellFormed, AllValid, Rests, LayerIterator.Repr, Footprint, Net, Balanced, IsNet,
      InternalLayer.Indexes, Disk.Raw;
    var kind := Subjects(0);
    NothingYet(kind);
    ghost var done: seq<LayerIndex> := [];
    var positives, negatives := [], [];
    var current := name;
    RawParts(disk, name);
    RawParts(disk, upto);
    ghost var whole := disk.Raw(name);
    assert whole.Indexes() == done + whole.Indexes();
    while current != upto
      invariant current in disk.layers && disk.Rooted()
      invariant Apart(positives, negatives) && fresh(Footprint(positives)) && fresh(Footprint(negatives))
      invariant whole.Indexes() == done + disk.Raw(current).Indexes()
      invariant AllCoherent(done) && AllYield(kind, done, Rests(positives), Rests(negatives))
      invariant (name == upto || Chain(disk, name, upto).Some?) <==>
        (current == upto || Chain(disk, current, upto).Some?)
      decreases disk.layers[current].created
    {
      RawParts(disk, current);
      OneMoreIndex(whole, done, disk.Raw(current));
      var f := disk.layers[current];
      positives, negatives := AddParts(FileAdditions(f), FileRemovals(f), done, positives, negatives);
      done := done + [LayerIndex(FileAdditions(f), FileRemovals(f))];
      if disk.ParentOf(current).None? {
        return None;
      }
      current := disk.ParentOf(current).value;
    }
    NetDifference(whole, disk.Raw(upto), done, Rests(positives), Rests(negatives));
    var it := FromParts(positives, negatives);
    r := Some(it);
  }

  /* ---- merging iterators ---- */

  lemma RestsConcat(a: seq<LayerIterator>, b: seq<LayerIterator>)
    requires Apart(a, b)
    ensures AllValid(a + b) && Rests(a + b) == Rests(a) + Rests(b) && Footprint(a + b) == Footprint(a) + Footprint(b)
  {
    hide LayerIterator.Valid, LayerIterator.Rest, LayerIterator.Repr, Rests;
    FootprintConcat(a, b);
    var c := a + b;
    forall i | 0 <= i < |c| ensures c[i].Valid() {
      assert c[i] == if i < |a| then a[i] else b[i - |a|];
    }
    forall i, j | 0 <= i < j < |c| ensures c[i].Repr() !! c[j].Repr() {
      if j < |a| {
        assert c[i] == a[i] && c[j] == a[j];
      } else if |a| <= i {
        assert c[i] == b[i - |a|] && c[j] == b[j - |a|];
      } else {
        assert c[i].Repr() <= Footprint(a) && c[j].Repr() <= Footprint(b);
      }
    }
    assert forall i :: 0 <= i < |a| ==> c[i] == a[i];
    assert forall i :: 0 <= i < |b| ==> c[|a| + i] == b[i];
    assert Rests(c) == Rests(a) + Rests(b);
  }

  lemma FootprintConcat(a: seq<LayerIterator>, b: seq<LayerIterator>)
    ensures Footprint(a + b) == Footprint(a) + Footprint(b)
    ensures forall i :: 0 <= i < |a| ==> a[i].Repr() <= Footprint(a)
    ensures forall i :: 0 <= i < |b| ==> b[i].Repr() <= Footprint(b)
  {
    hide LayerIterator.Repr;
    var c := a + b;
    assert forall i :: 0 <= i < |a| ==> c[i] == a[i];
    assert forall i :: 0 <= i < |b| ==> c[|a| + i] == b[i];
  }

  /** Merging two iterators, which share nothing, adds up their differences. */
  method Merge(a: StackIterator, b: StackIterator, ghost top: set<Triple>, ghost middle: set<Triple>,
      ghost bottom: set<Triple>) returns (it: StackIterator)
    requires a.Valid() && b.Valid()
    requires Footprint(a.positives) + Footprint(a.negatives) !! Footprint(b.positives) + Footprint(b.negatives)
    requires IsNet(Rests(a.positives), Rests(a.negatives), middle, bottom) &&
      IsNet(Rests(b.positives), Rests(b.negatives), top, middle)
    ensures it.Valid() && IsNet(Rests(it.positives), Rests(it.negatives), top, bottom)
    ensures Footprint(it.positives) == Footprint(a.positives) + Footprint(b.positives)
    ensures Footprint(it.negatives) == Footprint(a.negatives) + Footprint(b.negatives)
  {
    hide AllValid, Rests, LayerIterator.Repr, Footprint, Net, IsNet, AllStream;
    ghost var ap, an, bp, bn := Rests(a.positives), Rests(a.negatives), Rests(b.positives), Rests(b.negatives);
    RestsConcat(a.positives, b.positives);
    RestsConcat(a.negatives, b.negatives);
    NetsAddUp(ap, an, bp, bn, top, middle, bottom);
    NetIsBounded(ap + bp, an + bn, top, bottom);
    StreamsConcat(ap, bp);
    StreamsConcat(an, bn);
    it := FromParts(a.positives + b.positives, a.negatives + b.negatives);
  }

  lemma StreamsConcat(a: seq<seq<Triple>>, b: seq<seq<Triple>>)
    requires AllStream(BySubject, Everything, a) && AllStream(BySubject, Everything, b)
    ensures AllStream(BySubject, Everything, a + b)
  {
    hide Streams;
  }

  lemma NetsAddUp(ap: seq<seq<Triple>>, an: seq<seq<Triple>>, bp: seq<seq<Triple>>, bn: seq<seq<Triple>>,
      top: set<Triple>, middle: set<Triple>, bottom: set<Triple>)
    requires IsNet(ap, an, middle, bottom) && IsNet(bp, bn, top, middle)
    ensures IsNet(ap + bp, an + bn, top, bottom)
  {
    hide Net, Has;
    forall t ensures Net(ap + bp, an + bn, t) == Has(top, t) - Has(bottom, t) {
      MergeAddsUp(ap, an, bp, bn, t);
    }
  }

  lemma AllAllocated(its: seq<LayerIterator>)
    ensures forall o :: o in Footprint(its) ==> allocated(o)
  {
  }

  /** The changes in memory, sharing nothing with an iterator there already is. */
  method MemoryChanges(layer: InternalLayer, bound: Name, others: StackIterator) returns (r: StackIterator)
    requires layer.Valid() && Ancestor(layer, bound).Some?
    requires Apart(others.positives, others.negatives)
    ensures Apart(others.positives, others.negatives)
    ensures Rests(others.positives) == old(Rests(others.positives))
    ensures Rests(others.negatives) == old(Rests(others.negatives))
    ensures Footprint(others.positives) + Footprint(others.negatives) !! Footprint(r.positives) + Footprint(r.negatives)
    ensures r.Valid() && fresh(Footprint(r.positives)) && fresh(Footprint(r.negatives))
    ensures Ancestor(layer, bound).value.Valid()
    ensures IsNet(Rests(r.positives), Rests(r.negatives), layer.TripleSet(), Ancestor(layer, bound).value.TripleSet())
  {
    hide InternalLayer.Valid, InternalLayer.TripleSet, Net, Balanced, IsNet, Rests, Footprint, AllValid,
      LayerIterator.Repr;
    AllAllocated(others.positives);
    AllAllocated(others.negatives);
    var found := FromLayerStack(layer, bound);
    UnmovedAll(others.positives);
    UnmovedAll(others.negatives);
    r := found.value;
  }

  /** The net difference between a loaded layer and `upto`: read from memory above the bound and
      from disk below it. */
  method ChangesAcross(disk: Disk, layer: InternalLayer, bound: Name, upto: Name) returns (r: seq<Change>)
    requires disk.Sound() && Faithful(disk, layer.LayerName(), layer) && bound in disk.layers && upto in disk.layers
    requires bound == upto || Chain(disk, bound, upto).Some?
    requires Ancestor(layer, bound).Some?
    ensures layer.Valid() && disk.Raw(upto).Valid() && IsDifference(r, layer.TripleSet(), disk.Raw(upto).TripleSet())
  {
    hide Disk.Sound, Disk.Rooted, Faithful, InternalLayer.Valid, InternalLayer.TripleSet, Net, Balanced, IsNet,
      Disk.Raw, IsDifference, Rests, Footprint, AllValid, ReportOf, StackIterator.Left, LayerIterator.Repr;
    RawParts(disk, upto);
    FaithfulContents(disk, layer, bound);
    var diskChanges := DiskChanges(disk, bound, upto);
    var memoryChanges := MemoryChanges(layer, bound, diskChanges.value);
    var changes := Merge(diskChanges.value, memoryChanges, layer.TripleSet(), disk.Raw(bound).TripleSet(),
      disk.Raw(upto).TripleSet());
    ghost var pos, neg := Rests(changes.positives), Rests(changes.negatives);
    r := CollectChanges(changes);
    DifferenceOfNet(r, pos, neg, layer.TripleSet(), disk.Raw(upto).TripleSet());
  }

  /** The net difference between two layers on disk (`layer_changes_upto`). */
  method ChangesOnDisk(disk: Disk, name: Name, upto: Name) returns (r: seq<Change>)
    requires disk.Sound() && name in disk.layers && upto in disk.layers && Chain(disk, name, upto).Some?
    ensures disk.Raw(name).Valid() && disk.Raw(upto).Valid() &&
      IsDifference(r, disk.Raw(name).TripleSet(), disk.Raw(upto).TripleSet())
  {
    hide Disk.Sound, Disk.Rooted, InternalLayer.Valid, InternalLayer.TripleSet, Net, Balanced, IsNet, Disk.Raw,
      IsDifference, Rests, Footprint, AllValid, ReportOf, StackIterator.Left, LayerIterator.Repr, Chain;
    RawParts(disk, name);
    var found := DiskChanges(disk, name, upto);
    ghost var pos, neg := Rests(found.value.positives), Rests(found.value.negatives);
    r := CollectChanges(found.value);
    DifferenceOfNet(r, pos, neg, disk.Raw(name).TripleSet(), disk.Raw(upto).TripleSet());
  }

  lemma FaithfulContents(disk: Disk, layer: InternalLayer, bound: Name)
    requires disk.Sound() && Faithful(disk, layer.LayerName(), layer) && bound in disk.layers &&
      Ancestor(layer, bound).Some?
    ensures layer.Valid() && Ancestor(layer, bound).value.Valid() && disk.Rooted() && disk.Raw(bound).Valid()
    ensures Ancestor(layer, bound).value.TripleSet() == disk.Raw(bound).TripleSet()
  {
    hide Disk.Sound, InternalLayer.Valid, InternalLayer.TripleSet, Table, PredicateTable, DictsValid, Faithful;
    AncestorFaithful(disk, layer, bound);
    FaithfulIsSame(disk, bound, Ancestor(layer, bound).value);
    FaithfulIsSame(disk, layer.LayerName(), layer);
    RawParts(disk, bound);
  }

  lemma FaithfulIsSame(disk: Disk, n: Name, l: InternalLayer)
    requires Faithful(disk, n, l)
    ensures disk.Sound() && n in disk.layers && Grounded(l) && l.Valid() && DictsValid(l) && Grounded(disk.Raw(n)) &&
      DictsValid(disk.Raw(n))
    ensures TablesOf(l) == TablesOf(disk.Raw(n)) && l.TripleSet() == disk.Raw(n).TripleSet()
  {
    hide Disk.Sound, InternalLayer.Valid, InternalLayer.TripleSet, Table, PredicateTable, DictsValid;
    SoundIsRooted(disk);
    SoundAt(disk, n);
    GroundedParts(disk.Raw(n));
    GroundedParts(l);
  }
}
