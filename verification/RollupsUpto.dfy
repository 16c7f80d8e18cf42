/** Rolling a stack up to one of its ancestors: a child of that ancestor with all the ids and
    triples of the layer. */
module RollupsUpto {
  import opened Sorting
  import opened Triples
  import opened Dictionaries
  import opened InternalLayers
  import opened IdTranslation
  import opened StringTriples
  import opened Numberings
  import opened NetIterators
  import opened NetOfStacks
  import opened LayerFileBuilders
  import opened LayerQueries
  import opened Rollups
  import opened Squashes
  import opened Stores
  import opened RollupBounds
  import opened ChangeStreams

  /* ---- dictionaries ---- */

  /** `ds` holds what `whole` has on top of `below`. */
  ghost predicate OnTopOf(whole: InternalLayer, below: InternalLayer, ds: seq<Dictionary>) {
    && DictsValid(whole) && DictsValid(below) && AllValid(ds)
    && TablesOf(whole) == Extended(TablesOf(below), ds)
  }

  lemma NothingOnTop(l: InternalLayer)
    requires DictsValid(l)
    ensures OnTopOf(l, l, [])
  {
    hide DictsValid, Table, PredicateTable;
    NoOuters();
  }

  lemma OneMoreOnTop(whole: InternalLayer, l: InternalLayer, ds: seq<Dictionary>)
    requires OnTopOf(whole, l, ds) && l.ImmediateParent().Some?
    ensures OnTopOf(whole, l.ImmediateParent().value, [l.Dict()] + ds)
  {
    hide DictsValid, Table, PredicateTable, AllValid, Outers, OuterPredicatesOf, Dictionary.Valid, Dictionary.Outer,
      Dictionary.OuterPredicates;
    TableStep(l);
    OneOuter(l.Dict());
    AllOnTop([l.Dict()], ds);
    OutersAppend([l.Dict()], ds);
  }

  lemma AllOnTop(a: seq<Dictionary>, b: seq<Dictionary>)
    requires AllValid(a) && AllValid(b)
    ensures AllValid(a + b)
  {
    hide Dictionary.Valid;
  }

  lemma OnTopTwice(whole: InternalLayer, middle: InternalLayer, middle': InternalLayer, below: InternalLayer,
      upper: seq<Dictionary>, lower: seq<Dictionary>)
    requires OnTopOf(whole, middle, upper) && OnTopOf(middle', below, lower) && TablesOf(middle) == TablesOf(middle')
    ensures OnTopOf(whole, below, lower + upper)
  {
    hide DictsValid, Table, PredicateTable, AllValid, Outers, OuterPredicatesOf, Dictionary.Valid;
    AllOnTop(lower, upper);
    OutersAppend(lower, upper);
  }

  /** The dictionaries on disk from `name` down to, and without, `upto`, lowest first. */
  method DiskDicts(disk: Disk, name: Name, upto: Name) returns (ds: seq<Dictionary>)
    requires disk.Sound() && name in disk.layers && upto in disk.layers &&
      (name == upto || Chain(disk, name, upto).Some?)
    ensures OnTopOf(disk.Raw(name), disk.Raw(upto), ds)
  {
    hide Disk.Sound, Disk.Rooted, Disk.Raw, DictsValid, OnTopOf, InternalLayer.Valid;
    RawParts(disk, name);
    RawDicts(disk, name);
    ds := [];
    var current := name;
    NothingOnTop(disk.Raw(name));
    while current != upto
      invariant current in disk.layers && disk.Rooted() && (current == upto || Chain(disk, current, upto).Some?)
      invariant OnTopOf(disk.Raw(name), disk.Raw(current), ds)
      decreases disk.layers[current].created
    {
      RawParts(disk, current);
      OneMoreOnTop(disk.Raw(name), disk.Raw(current), ds);
      ds := [disk.layers[current].dict] + ds;
      current := disk.ParentOf(current).value;
    }
  }

  lemma RawDicts(disk: Disk, n: Name)
    requires disk.Sound() && n in disk.layers
    ensures disk.Rooted() && DictsValid(disk.Raw(n))
  {
    hide InternalLayer.Valid, InternalLayer.TripleSet, KnowsAll, DictsValid;
    SoundAt(disk, n);
  }

  /** The loaded layers above the one called `upto`, lowest first (`immediate_layers_upto`). The
      source panics when there is none called so. */
  method MemoryDicts(layer: InternalLayer, upto: Name) returns (ds: seq<Dictionary>)
    requires DictsValid(layer) && layer.LayerName() != upto && Ancestor(layer, upto).Some?
    ensures ds == DictsUpto(layer, upto)
    ensures OnTopOf(layer, Ancestor(layer, upto).value, ds)
  {
    hide DictsValid, OnTopOf;
    NothingOnTop(layer);
    OneMoreOnTop(layer, layer, []);
    assert [layer.Dict()] + [] == [layer.Dict()];
    ds := [layer.Dict()];
    var l := layer.ImmediateParent().value;
    while l.LayerName() != upto
      invariant OnTopOf(layer, l, ds)
      invariant l.LayerName() != upto ==> Ancestor(l, upto).Some?
      invariant Ancestor(layer, upto).value == if l.LayerName() == upto then l else Ancestor(l, upto).value
      invariant DictsUpto(layer, upto) == (if l.LayerName() == upto then [] else DictsUpto(l, upto)) + ds
      decreases l.Size()
    {
      OneMoreOnTop(layer, l, ds);
      ghost var below := if l.ImmediateParent().value.LayerName() == upto then []
        else DictsUpto(l.ImmediateParent().value, upto);
      assert below + [l.Dict()] + ds == below + ([l.Dict()] + ds);
      ds := [l.Dict()] + ds;
      l := l.ImmediateParent().value;
    }
    assert [] + ds == ds;
  }

  ghost function DictsUpto(l: InternalLayer, upto: Name): seq<Dictionary>
    requires Ancestor(l, upto).Some?
    decreases l.Size()
  {
    var p := l.ImmediateParent().value;
    (if p.LayerName() == upto then [] else DictsUpto(p, upto)) + [l.Dict()]
  }

  /** The maps `dictionary_rollup_upto` numbers the predicates of loaded layers by: those of their
      nodes and values. */
  function MemoryMaps(ds: seq<Dictionary>): (maps: seq<IdMap>)
    ensures |maps| == |ds| && forall i :: 0 <= i < |ds| ==> maps[i] == ds[i].nodeValueIds
  {
    seq(|ds|, i requires 0 <= i < |ds| => ds[i].nodeValueIds)
  }

  /** For every predicate they say what the map of the predicates says. */
  predicate ReadRight(ds: seq<Dictionary>) {
    forall i :: 0 <= i < |ds| ==> Tells(ds[i], ds[i].nodeValueIds)
  }

  /** The loaded layers above the bound are ones whose predicates are read right. */
  ghost predicate ReadRightAbove(layer: InternalLayer, bound: Name) {
    Ancestor(layer, bound).Some? && ReadRight(DictsUpto(layer, bound))
  }

  /** The maps gathered from disk and memory are right exactly when those from memory are. */
  lemma MapsTell(below: seq<Dictionary>, above: seq<Dictionary>)
    ensures AllTell(below + above, PredicateMaps(below) + MemoryMaps(above)) <==> ReadRight(above)
  {
    hide Tells;
    var ds, maps := below + above, PredicateMaps(below) + MemoryMaps(above);
    forall i | 0 <= i < |below| ensures Tells(ds[i], maps[i]) {
      OwnMapTells(below[i]);
    }
    if AllTell(ds, maps) {
      forall i | 0 <= i < |above| ensures Tells(above[i], above[i].nodeValueIds) {
        assert Tells(ds[|below| + i], maps[|below| + i]);
      }
    }
  }

  lemma OwnMapTells(d: Dictionary)
    ensures Tells(d, d.predicateIds)
  {
  }

  /* ---- the rolled-up child ---- */

  lemma Separated(ds: seq<Dictionary>, below: Tables, whole: Tables)
    requires AllValid(ds) && whole == Extended(below, ds) && whole.Distinct()
    ensures Distinct(Outers(ds)) && Distinct(OuterPredicatesOf(ds))
  {
    hide AllValid, Outers, OuterPredicatesOf;
    assert forall i :: 0 <= i < |Outers(ds)| ==> whole.entries[|below.entries| + i] == Outers(ds)[i];
    assert forall i :: 0 <= i < |OuterPredicatesOf(ds)| ==>
      whole.predicates[|below.predicates| + i] == OuterPredicatesOf(ds)[i];
  }

  /** The maps go with the dictionaries: each loaded layer's map of nodes and values for those above
      the bound, their own maps of predicates for those from disk. */
  ghost predicate MapsOf(ds: seq<Dictionary>, maps: seq<IdMap>, layer: InternalLayer, bound: Name) {
    && Ancestor(layer, bound).Some? && |DictsUpto(layer, bound)| <= |ds|
    && var n := |ds| - |DictsUpto(layer, bound)|;
      ds[n..] == DictsUpto(layer, bound) && maps == PredicateMaps(ds[..n]) + MemoryMaps(ds[n..])
  }

  /** The predicates written are those of the layers above `upto`, numbered under these maps. */
  ghost predicate WritesPredicates(d: Dictionary, layer: InternalLayer, upto: InternalLayer, bound: Name) {
    exists ds, maps :: OnTopOf(layer, upto, ds) && MapsOf(ds, maps, layer, bound) && WritesNumbers(d, ds, maps)
  }

  /** The dictionaries above `upto`, from disk and from memory, and the maps of their predicates. */
  method GatherDicts(disk: Disk, layer: InternalLayer, bound: Name, upto: Name, ghost middle: InternalLayer)
      returns (ds: seq<Dictionary>, maps: seq<IdMap>)
    requires disk.Sound() && bound in disk.layers && upto in disk.layers &&
      (bound == upto || Chain(disk, bound, upto).Some?)
    requires DictsValid(layer) && layer.LayerName() != bound && Ancestor(layer, bound) == Some(middle)
    requires disk.Rooted() && DictsValid(disk.Raw(bound)) && DictsValid(middle) &&
      TablesOf(middle) == TablesOf(disk.Raw(bound))
    ensures OnTopOf(layer, disk.Raw(upto), ds) && |maps| == |ds| && MapsOf(ds, maps, layer, bound)
    ensures AllTell(ds, maps) <==> ReadRight(DictsUpto(layer, bound))
  {
    hide Disk.Sound, Disk.Rooted, Disk.Raw, DictsValid, OnTopOf, TablesOf, ReadRight, AllTell, Chain, Ancestor;
    var diskDicts := DiskDicts(disk, bound, upto);
    var memoryDicts := MemoryDicts(layer, bound);
    ds := diskDicts + memoryDicts;
    maps := PredicateMaps(diskDicts) + MemoryMaps(memoryDicts);
    MapsTell(diskDicts, memoryDicts);
    assert ds[|diskDicts|..] == memoryDicts && ds[..|diskDicts|] == diskDicts;
    OnTopTwice(layer, middle, disk.Raw(bound), disk.Raw(upto), memoryDicts, diskDicts);
  }

  /** Rolls the layers above `upto` up into one child of it, from memory down to the bound and
      from disk below it. The triples are always those of the layer. The ids, and with them what the
      child says, are those of the layer exactly when the predicates of the layers read from memory
      are read right. */
  method DeltaRollupUpto(disk: Disk, layer: InternalLayer, upto: Name, uptoLayer: InternalLayer,
      name: Name) returns (r: InternalLayer)
    requires disk.Sound() && Faithful(disk, layer.LayerName(), layer) && Faithful(disk, upto, uptoLayer)
    requires layer.LayerName() in disk.layers && layer.LayerName() != upto
    requires Chain(disk, layer.LayerName(), upto).Some? &&
      !Blocked(Chain(disk, layer.LayerName(), upto).value, upto, layer)
    ensures r.Child? && r.name == name && r.parent == uptoLayer && r.Valid() && r.TripleSet() == layer.TripleSet()
    ensures AsWritten(r)
    ensures KeepsIds(r, layer) <==>
      ReadRightAbove(layer, Bound(Chain(disk, layer.LayerName(), upto).value, upto, layer))
    ensures KeepsIds(r, layer) ==> Grounded(r) && Grounded(layer) && Meaning(r) == Meaning(layer)
    ensures disk.Rooted() && upto in disk.layers && WritesPredicates(r.dict, layer, disk.Raw(upto),
      Bound(Chain(disk, layer.LayerName(), upto).value, upto, layer))
  {
    hide WritesNumbers, MapsOf, Disk.Sound, Disk.Rooted, Disk.Raw, Faithful, Grounded, DictsValid, OnTopOf,
      InternalLayer.Valid, InternalLayer.TripleSet, TablesOf, AllValid, Outers, OuterPredicatesOf, Extended,
      Distinct, Filter, Increasing, IsDifference, Blocked, ReadRight, AllTell, Bound, Chain, Tables.Distinct,
      Meaning, KeepsIds, Dictionary.Valid, IdMap.Permutes, Permuted, Dictionary.OuterPredicates, Dictionary.Entries;
    SoundIsRooted(disk);
    ghost var names := Chain(disk, layer.LayerName(), upto).value;
    BoundIsSafe(disk, upto, layer, names);
    var found := SafeUptoBound(disk, layer, upto);
    var bound := found.value;
    ghost var middle := Ancestor(layer, bound).value;
    FaithfulIsSame(disk, layer.LayerName(), layer);
    FaithfulIsSame(disk, upto, uptoLayer);
    FaithfulIsSame(disk, bound, middle);
    var ds, maps := GatherDicts(disk, layer, bound, upto, middle);
    TopTables(layer, disk.Raw(upto), uptoLayer, ds);
    var d := RollupDictionary(ds, maps);
    var changes := ChangesAcross(disk, layer, bound, upto);
    var adds, rems := SplitChanges(changes);
    SplitDifference(changes, layer.TripleSet(), uptoLayer.TripleSet());
    ChangesReal(layer, uptoLayer, adds, rems);
    r := BuildChildLayer(name, uptoLayer, d, adds, rems);
    ChildTables(r, uptoLayer, layer, ds);
    NetOnTop(uptoLayer.TripleSet(), layer.TripleSet());
    KeptMeaning(r, layer);
  }

  /** Both layers give out the same ids for the same strings. */
  ghost predicate KeepsIds(r: InternalLayer, layer: InternalLayer) {
    DictsValid(r) && DictsValid(layer) && TablesOf(r) == TablesOf(layer)
  }

  lemma KeptMeaning(r: InternalLayer, layer: InternalLayer)
    requires Grounded(layer) && r.Valid() && r.TripleSet() == layer.TripleSet()
    ensures KeepsIds(r, layer) ==> Grounded(r) && Meaning(r) == Meaning(layer)
  {
    hide Grounded, DictsValid, InternalLayer.Valid, InternalLayer.TripleSet, TablesOf, Meaning;
    if KeepsIds(r, layer) {
      SameMeaning(layer, r);
    }
  }

  lemma NetOnTop(bottom: set<Triple>, top: set<Triple>)
    ensures bottom - (bottom - top) + (top - bottom) == top
  {
  }

  /** Seen from the loaded ancestor. */
  lemma TopTables(layer: InternalLayer, raw: InternalLayer, upto: InternalLayer, ds: seq<Dictionary>)
    requires OnTopOf(layer, raw, ds) && Grounded(layer) && Grounded(upto) && DictsValid(upto) &&
      TablesOf(upto) == TablesOf(raw)
    ensures OnTopOf(layer, upto, ds) && AllValid(ds) && Distinct(Outers(ds)) && Distinct(OuterPredicatesOf(ds))
  {
    hide DictsValid, AllValid, InternalLayer.Valid, InternalLayer.TripleSet, Table, PredicateTable, Outers,
      OuterPredicatesOf;
    GroundedParts(layer);
    Separated(ds, TablesOf(upto), TablesOf(layer));
  }

  lemma ChangesReal(layer: InternalLayer, upto: InternalLayer, adds: seq<Triple>, rems: seq<Triple>)
    requires layer.Valid() && upto.Valid()
    requires Elements(adds) == layer.TripleSet() - upto.TripleSet() &&
      Elements(rems) == upto.TripleSet() - layer.TripleSet()
    ensures Filter(Nonzero, adds) == adds && Filter(Nonzero, rems) == rems
  {
    hide InternalLayer.Valid, InternalLayer.TripleSet, Filter;
    forall i | 0 <= i < |adds| ensures Nonzero(adds[i]) {
      assert adds[i] in Elements(adds);
      TriplesAreReal(layer, adds[i]);
    }
    forall i | 0 <= i < |rems| ensures Nonzero(rems[i]) {
      assert rems[i] in Elements(rems);
      TriplesAreReal(upto, rems[i]);
    }
    FilterKeepsAll(Nonzero, adds);
    FilterKeepsAll(Nonzero, rems);
  }

  lemma ChildTables(r: InternalLayer, upto: InternalLayer, layer: InternalLayer, ds: seq<Dictionary>)
    requires r.Child? && r.parent == upto && OnTopOf(layer, upto, ds)
    requires r.dict.nodeValueIds.Permutes(r.dict.Count())
    requires Permuted(r.dict.Entries(), r.dict.nodeValueIds) == Outers(ds)
    ensures KeepsIds(r, layer) <==> r.dict.Valid() && r.dict.OuterPredicates() == OuterPredicatesOf(ds)
  {
    hide DictsValid, AllValid, Table, PredicateTable, Outers, OuterPredicatesOf, Dictionary.Valid,
      Dictionary.OuterPredicates, Permuted, IdMap.Permutes, Dictionary.Outer, Dictionary.Entries;
    DictsBelow(r);
    if r.dict.Valid() {
      DictsOnTop(r);
      TableStep(r);
      OuterIs(r.dict);
      SameRest(PredicateTable(upto), r.dict.OuterPredicates(), OuterPredicatesOf(ds));
    }
  }

  lemma DictsBelow(r: InternalLayer)
    requires r.Child?
    ensures DictsValid(r) ==> r.dict.Valid()
  {
    hide Dictionary.Valid;
  }

  lemma SameRest<T>(front: seq<T>, a: seq<T>, b: seq<T>)
    ensures front + a == front + b <==> a == b
  {
    if front + a == front + b {
      assert a == (front + a)[|front|..] && b == (front + b)[|front|..];
    }
  }
}
