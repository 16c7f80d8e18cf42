/** Stores on which loading or rolling up goes wrong. They hold no triples at all: what matters is
    which layers and rollups there are, and what is in the dictionaries. */
module RollupExamples {
  import opened Sorting
  import opened Triples
  import opened StackSemantics
  import opened AdjacencyLists
  import opened TripleIndexes
  import opened ObjectIndexes
  import opened Dictionaries
  import opened InternalLayers
  import opened IdTranslation
  import opened StringTriples
  import opened NetOfStacks
  import opened LayerFileBuilders
  import opened Rollups
  import opened Stores
  import opened LayerStores
  import opened RollupBounds
  import opened RollupsUpto
  import opened StoreRuns

  function NoTriples(sparse: bool): ObjectIndex {
    var list: Option<seq<nat>> := if sparse then Some([]) else None;
    ObjectIndex(TripleIndex(list, AdjacencyList([], []), AdjacencyList([], [])), list, AdjacencyList([], []))
  }

  function NoStrings(): Dictionary {
    Dictionary([], [], [], IdMap(None), IdMap(None))
  }

  function EmptyBase(created: nat): Files {
    BaseFiles(created, NoStrings(), NoTriples(false))
  }

  function ChildWith(created: nat, parent: Name, dict: Dictionary): Files {
    ChildFiles(created, parent, dict, NoTriples(true), NoTriples(true))
  }

  function EmptyChild(created: nat, parent: Name): Files {
    ChildWith(created, parent, NoStrings())
  }

  lemma NoTriplesCoherent(sparse: bool)
    ensures NoTriples(sparse).Coherent() && NoTriples(sparse).x.Listing() == []
    ensures NoTriples(sparse).x.subjects.Some? <==> sparse
  {
    var oi := NoTriples(sparse);
    assert oi.x.Coherent();
    assert oi.Entries() == [] && SpoEntries(oi.x, 0) == [];
  }

  lemma NoStringsValid()
    ensures NoStrings().Valid() && NoStrings().Outer() == [] && NoStrings().OuterPredicates() == []
  {
  }

  /** A layer without triples that gives out the ids of `tables`. */
  ghost predicate Quiet(l: InternalLayer, tables: Tables) {
    Grounded(l) && TablesOf(l) == tables && l.TripleSet() == {}
  }

  lemma QuietBase(l: InternalLayer)
    requires l.Base? && l.dict == NoStrings() && l.triples == NoTriples(false)
    ensures Quiet(l, Tables([], []))
  {
    hide ObjectIndex.Coherent, TripleIndex.Listing, Dictionary.Valid, Dictionary.Outer, Dictionary.OuterPredicates,
      InternalLayer.TripleSet, InternalLayer.Valid;
    NoTriplesCoherent(false);
    NoStringsValid();
    BaseLayerMeans(l);
  }

  lemma QuietChild(l: InternalLayer, below: Tables, entries: seq<Dictionaries.Entry>, predicates: seq<Str>)
    requires l.Child? && Quiet(l.parent, below) && l.pos == NoTriples(true) && l.neg == NoTriples(true)
    requires l.dict.Valid() && l.dict.Outer() == entries && l.dict.OuterPredicates() == predicates
    requires Tables(below.entries + entries, below.predicates + predicates).Distinct()
    ensures Quiet(l, Tables(below.entries + entries, below.predicates + predicates))
  {
    hide ObjectIndex.Coherent, TripleIndex.Listing, Dictionary.Valid, Dictionary.Outer, Dictionary.OuterPredicates,
      InternalLayer.TripleSet, InternalLayer.Valid, Table, PredicateTable, DictsValid, Distinct;
    NoTriplesCoherent(true);
    GroundedParts(l.parent);
    ChildLayerMeans(l);
    DictsOnTop(l);
    TableStep(l);
  }

  /** A child without strings gives out the ids of its parent. */
  lemma QuietEmpty(l: InternalLayer, below: Tables)
    requires l.Child? && Quiet(l.parent, below) && l.dict == NoStrings() && l.pos == NoTriples(true) &&
      l.neg == NoTriples(true)
    ensures Quiet(l, below)
  {
    hide Dictionary.Valid, Dictionary.Outer, Dictionary.OuterPredicates, InternalLayer.TripleSet, InternalLayer.Valid,
      Table, PredicateTable, DictsValid, NoTriples, NoStrings;
    NoStringsValid();
    GroundedParts(l.parent);
    assert Tables(below.entries + [], below.predicates + []) == below;
    QuietChild(l, below, [], []);
  }

  lemma QuietGrounded(l: InternalLayer, tables: Tables)
    requires Quiet(l, tables)
    ensures Grounded(l) && DictsValid(l) && TablesOf(l) == tables && l.Valid() && l.TripleSet() == {}
  {
  }

  /* ---- a rollup of a rollup ---- */

  /** Three layers, the third rolled up to the first as layer 4, and that one rolled up to a base
      layer 5. */
  function Chained(): Disk {
    Disk(map[1 := EmptyBase(0), 2 := EmptyChild(1, 1), 3 := EmptyChild(2, 2), 4 := EmptyChild(3, 1), 5 := EmptyBase(4)],
         map[3 := 4, 4 := 5], 5)
  }

  lemma ChainedIsValid()
    ensures Chained().Valid()
  {
    hide Quiet, Grounded, TablesOf, InternalLayer.TripleSet, NoTriples, NoStrings;
    var disk, none := Chained(), Tables([], []);
    assert disk.Rooted() by {
      forall n | n in disk.layers ensures disk.RootedAt(n) {
      }
    }
    QuietBase(disk.Raw(1));
    QuietEmpty(disk.Raw(2), none);
    QuietEmpty(disk.Raw(3), none);
    QuietEmpty(disk.Raw(4), none);
    QuietBase(disk.Raw(5));
    forall n | n in disk.layers ensures Quiet(disk.Raw(n), none) && Grounded(disk.Raw(n)) {
      QuietGrounded(disk.Raw(n), none);
    }
    forall n | n in disk.rollups ensures disk.StandsFor(n, disk.rollups[n]) {
      QuietGrounded(disk.Raw(n), none);
      QuietGrounded(disk.Raw(disk.rollups[n]), none);
    }
  }

  /** Asked for layer 3, the loader returns layer 4. */
  lemma MisnamedExample()
    ensures Chained().Valid() && Loaded(Chained(), 3).LayerName() == 4
  {
    hide Disk.Valid;
    ChainedIsValid();
    var disk := Chained();
    assert disk.rollups[3] == 4 && disk.rollups[4] == 5 && 5 !in disk.rollups;
    assert Loaded(disk, 3) == Loaded(disk, 4);
  }

  /* ---- a bound that is the layer itself ---- */

  /** Four layers, the fourth rolled up to the first as layer 5. */
  function RolledBelow(): Disk {
    Disk(map[1 := EmptyBase(0), 2 := EmptyChild(1, 1), 3 := EmptyChild(2, 2), 4 := EmptyChild(3, 3), 5 :=
        EmptyChild(4, 1)],
         map[4 := 5], 5)
  }

  lemma RolledBelowIsRooted()
    ensures RolledBelow().Rooted()
  {
    hide EmptyBase, EmptyChild, ChildWith;
    var disk := RolledBelow();
    EmptyParts(0, 0);
    forall i, p { EmptyParts(i, p); }
    forall n | n in disk.layers ensures disk.RootedAt(n) {
    }
  }

  lemma EmptyParts(created: nat, parent: Name)
    ensures EmptyBase(created).created == created && EmptyBase(created).BaseFiles?
    ensures var f := EmptyChild(created, parent); f.created == created && f.ChildFiles? && f.parent == parent
  {
  }

  lemma RolledBelowIsQuiet(n: Name)
    requires n in RolledBelow().layers
    ensures RolledBelow().Rooted() && Quiet(RolledBelow().Raw(n), Tables([], []))
  {
    hide Quiet, NoTriples, NoStrings, Disk.Rooted;
    var disk, none := RolledBelow(), Tables([], []);
    RolledBelowIsRooted();
    QuietBase(disk.Raw(1));
    if n == 5 {
      QuietEmpty(disk.Raw(5), none);
    } else if n != 1 {
      QuietEmpty(disk.Raw(2), none);
      if n != 2 {
        QuietEmpty(disk.Raw(3), none);
        if n != 3 {
          QuietEmpty(disk.Raw(4), none);
        }
      }
    }
  }

  lemma RolledBelowIsValid()
    ensures RolledBelow().Valid() && RolledBelow().NoChains()
  {
    hide Quiet, Grounded, TablesOf, InternalLayer.TripleSet, NoTriples, NoStrings, Disk.Rooted, Disk.Raw;
    var disk, none := RolledBelow(), Tables([], []);
    RolledBelowIsRooted();
    forall n | n in disk.layers ensures Quiet(disk.Raw(n), none) && Grounded(disk.Raw(n)) {
      RolledBelowIsQuiet(n);
      QuietGrounded(disk.Raw(n), none);
    }
    QuietGrounded(disk.Raw(4), none);
    QuietGrounded(disk.Raw(5), none);
  }

  lemma RolledBelowParts()
    ensures var disk := RolledBelow();
      && 1 in disk.layers && 3 in disk.layers && 4 in disk.layers && 5 in disk.layers
      && disk.ParentOf(4) == Some(3) && disk.ParentOf(3) == Some(2) && disk.layers[1].BaseFiles?
      && disk.layers[5].ChildFiles? && disk.layers[5].parent == 1 && disk.rollups == map[4 := 5]
  {
    hide NoTriples, NoStrings;
  }

  /** Rolling layer 4 up to layer 2 afterwards: the loaded layer hangs below 1, which is not among
      the names above 2, so the bound is layer 4 itself and no changes above it can be read. */
  lemma BlockedExample()
    ensures RolledBelow().Valid() && RolledBelow().NoChains()
    ensures var disk := RolledBelow(); var layer := Loaded(disk, 4);
      && layer.LayerName() == 4 && layer.ParentName() == Some(3) && Chain(disk, 4, 2) == Some([3, 4])
      && Blocked([3, 4], 2, layer) && Bound([3, 4], 2, layer) == 4 && Ancestor(layer, 4).None?
      && !RollsUpto(disk, layer, 2)
  {
    hide Disk.Valid, Disk.NoChains, Loaded, Chain, Disk.Rooted, Ancestor, Bound, Blocked, RolledBelow;
    var lowest, child := RolledBelowLoaded();
    RolledBelowChain();
    RolledBelowParts();
    BlockedShape(Loaded(RolledBelow(), 4), lowest, child);
  }

  lemma RolledBelowLoaded() returns (lowest: InternalLayer, child: InternalLayer)
    ensures RolledBelow().Valid() && RolledBelow().NoChains() && 4 in RolledBelow().layers
    ensures lowest.Base? && lowest.name == 1 && child.Child? && child.parent == lowest
    ensures Loaded(RolledBelow(), 4) == Rollup(child, 4, Some(3))
  {
    hide Disk.Valid, Disk.NoChains, Loaded, Plain, Disk.Rooted, RolledBelow;
    RolledBelowIsValid();
    RolledBelowParts();
    var disk := RolledBelow();
    LoadedRollup(disk, 4);
    PlainOnParent(disk, 5);
    LoadedBase(disk, 1);
    lowest, child := Loaded(disk, 1), Plain(disk, 5);
  }

  lemma RolledBelowChain()
    ensures RolledBelow().Rooted() && 4 in RolledBelow().layers && Chain(RolledBelow(), 4, 2) == Some([3, 4])
  {
    hide Disk.Rooted, Chain, RolledBelow;
    RolledBelowIsRooted();
    RolledBelowParts();
    ChainStep(RolledBelow(), 4, 2);
    ChainStep(RolledBelow(), 3, 2);
    assert [3] + [4] == [3, 4];
  }

  lemma BlockedShape(l: InternalLayer, lowest: InternalLayer, child: InternalLayer)
    requires lowest.Base? && lowest.name == 1 && child.Child? && child.parent == lowest &&
      l == Rollup(child, 4, Some(3))
    ensures l.LayerName() == 4 && l.ParentName() == Some(3)
    ensures Blocked([3, 4], 2, l) && Bound([3, 4], 2, l) == 4 && Ancestor(l, 4).None?
  {
    AncestorStep(lowest, 4);
    AncestorStep(l, 4);
  }

  lemma LoadedRollup(disk: Disk, n: Name)
    requires disk.Valid() && n in disk.layers && n in disk.rollups && disk.rollups[n] !in disk.rollups
    ensures disk.rollups[n] in disk.layers && Loaded(disk, n) ==
      Rollup(Plain(disk, disk.rollups[n]), n, disk.ParentOf(n))
  {
    hide Disk.Valid, Plain;
    Ages(disk, n);
  }

  lemma LoadedPlain(disk: Disk, n: Name)
    requires disk.Valid() && n in disk.layers && n !in disk.rollups
    ensures Loaded(disk, n) == Plain(disk, n)
  {
    hide Disk.Valid, Plain;
  }

  lemma PlainOnParent(disk: Disk, n: Name)
    requires disk.Valid() && n in disk.layers && disk.layers[n].ChildFiles?
    ensures var f := disk.layers[n];
      f.parent in disk.layers && Plain(disk, n) == Child(n, Loaded(disk, f.parent), f.dict, f.pos, f.neg)
  {
    hide Disk.Valid, Loaded;
    Ages(disk, n);
  }

  lemma LoadedBase(disk: Disk, n: Name)
    requires disk.Valid() && n in disk.layers && disk.layers[n].BaseFiles? && n !in disk.rollups
    ensures var f := disk.layers[n]; Loaded(disk, n) == Base(n, f.dict, f.triples)
  {
    hide Disk.Valid;
  }

  lemma ChainStep(disk: Disk, n: Name, upto: Name)
    requires disk.Rooted() && n in disk.layers && disk.ParentOf(n).Some?
    ensures disk.ParentOf(n) == Some(upto) ==> Chain(disk, n, upto) == Some([n])
    ensures disk.ParentOf(n).value in disk.layers
    ensures var p := disk.ParentOf(n).value;
      (p != upto && Chain(disk, p, upto).Some? ==> Chain(disk, n, upto) == Some(Chain(disk, p, upto).value + [n]))
  {
    assert disk.RootedAt(n);
  }

  lemma AncestorStep(l: InternalLayer, name: Name)
    ensures l.ImmediateParent().None? ==> Ancestor(l, name).None?
    ensures l.ImmediateParent().Some? ==> var p := l.ImmediateParent().value;
      Ancestor(l, name) == if p.LayerName() == name then Some(p) else Ancestor(p, name)
  {
  }

  /* ---- predicates read under the wrong map ---- */

  function Third(): Dictionary {
    Dictionary([[2]], [[1]], [], IdMap(None), IdMap(None))
  }

  function Fourth(): Dictionary {
    Dictionary([[1]], [[2]], [], IdMap(None), IdMap(None))
  }

  /** What rolling up the two dictionaries gives: the nodes change places, the predicates do not. */
  function Both(): Dictionary {
    Dictionary([[1], [2]], [[1], [2]], [], IdMap(Some([1, 0])), IdMap(Some([0, 1])))
  }

  /** Four layers, of which the third and the fourth have strings, and the fourth is rolled up to
      the second as layer 5. */
  function Permuting(): Disk {
    Disk(map[1 := EmptyBase(0), 2 := EmptyChild(1, 1), 3 := ChildWith(2, 2, Third()), 4 := ChildWith(3, 3, Fourth()),
             5 := ChildWith(4, 2, Both())],
         map[4 := 5], 5)
  }

  lemma SingleDictionaries()
    ensures Third().Valid() && Third().Outer() == [Node([2])] && Third().OuterPredicates() == [[1]]
    ensures Fourth().Valid() && Fourth().Outer() == [Node([1])] && Fourth().OuterPredicates() == [[2]]
  {
  }

  lemma BothDictionary()
    ensures Both().Valid() && Both().Outer() == [Node([2]), Node([1])] && Both().OuterPredicates() == [[1], [2]]
  {
    hide IdMap.Permutes, Ascending, Permuted, Dictionary.Entries;
    var d := Both();
    BothAscend();
    BothPermute();
    assert d.Entries() == [Node([1]), Node([2])] by { BothEntries(); }
  }

  lemma BothEntries()
    ensures Both().Entries() == [Node([1]), Node([2])]
  {
  }

  lemma BothAscend()
    ensures Ascending(StrOrdering(), [[1], [2]]) && Ascending<Dictionaries.Entry>(EntryOrdering(), [])
  {
    var one: Str, two: Str := [1], [2];
    assert StrLe(one[1..], two[1..]) && StrOrdering()(one, two);
  }

  lemma BothPermute()
    ensures IdMap(Some([1, 0])).Permutes(2) && IdMap(Some([0, 1])).Permutes(2)
    ensures Permuted([Node([1]), Node([2])], IdMap(Some([1, 0]))) == [Node([2]), Node([1])]
    ensures Permuted<Str>([[1], [2]], IdMap(Some([0, 1]))) == [[1], [2]]
  {
    var m, k := IdMap(Some([1, 0])), IdMap(Some([0, 1]));
    assert m.OuterToInner(1) == 2 && m.OuterToInner(2) == 1 && k.OuterToInner(1) == 1 && k.OuterToInner(2) == 2;
  }

  /** The nodes' map is not the predicates'. */
  lemma BothDisagree()
    ensures !Tells(Both(), Both().nodeValueIds)
  {
    var d := Both();
    assert d.nodeValueIds.InnerToOuter(1) == 2 && d.predicateIds.InnerToOuter(1) == 1;
  }

  lemma PermutingIsRooted()
    ensures Permuting().Rooted()
  {
    hide NoTriples, NoStrings, Third, Fourth, Both;
    var disk := Permuting();
    forall n | n in disk.layers ensures disk.RootedAt(n) {
    }
  }

  lemma PermutingParts()
    ensures var disk := Permuting();
      && 1 in disk.layers && 2 in disk.layers && 3 in disk.layers && 4 in disk.layers && 5 in disk.layers
      && disk.ParentOf(2) == Some(1) && disk.ParentOf(3) == Some(2) && disk.ParentOf(4) == Some(3)
      && disk.ParentOf(5) == Some(2) && disk.layers[1].BaseFiles? && disk.layers[5].dict == Both()
      && disk.rollups == map[4 := 5] && disk.clock == 5 && 6 !in disk.layers
  {
    hide NoTriples, NoStrings, Third, Fourth, Both;
  }

  /** The ids given out by layers 4 and 5. */
  function Ids(): Tables {
    Tables([Node([2]), Node([1])], [[1], [2]])
  }

  lemma IdsDistinct()
    ensures Ids().Distinct() && Tables([Node([2])], [[1]]).Distinct()
  {
  }

  function PermutingIds(n: Name): Tables {
    if n == 3 then Tables([Node([2])], [[1]]) else if n == 4 || n == 5 then Ids() else Tables([], [])
  }

  lemma PermutingIsQuiet(n: Name)
    requires n in Permuting().layers
    ensures Permuting().Rooted() && Quiet(Permuting().Raw(n), PermutingIds(n))
  {
    hide Quiet, NoTriples, NoStrings, Disk.Rooted, Third, Fourth, Both, Dictionary.Valid, Dictionary.Outer,
      Dictionary.OuterPredicates, Tables.Distinct;
    var disk, none := Permuting(), Tables([], []);
    var one := Tables([Node([2])], [[1]]);
    PermutingIsRooted();
    SingleDictionaries();
    BothDictionary();
    IdsDistinct();
    QuietBase(disk.Raw(1));
    QuietEmpty(disk.Raw(2), none);
    assert Tables(none.entries + [Node([2])], none.predicates + [[1]]) == one;
    assert Tables(none.entries + Ids().entries, none.predicates + Ids().predicates) == Ids();
    assert Tables(one.entries + [Node([1])], one.predicates + [[2]]) == Ids();
    if n == 5 {
      QuietChild(disk.Raw(5), none, Ids().entries, Ids().predicates);
    } else if n == 3 || n == 4 {
      QuietChild(disk.Raw(3), none, [Node([2])], [[1]]);
      if n == 4 {
        QuietChild(disk.Raw(4), one, [Node([1])], [[2]]);
      }
    }
  }

  lemma PermutingIsValid()
    ensures Permuting().Valid() && Permuting().NoChains()
  {
    hide Quiet, Grounded, TablesOf, InternalLayer.TripleSet, NoTriples, NoStrings, Disk.Rooted, Disk.Raw, Third, Fourth,
      Both, Ids;
    var disk := Permuting();
    PermutingIsRooted();
    forall n | n in disk.layers ensures Quiet(disk.Raw(n), PermutingIds(n)) && Grounded(disk.Raw(n)) {
      PermutingIsQuiet(n);
      QuietGrounded(disk.Raw(n), PermutingIds(n));
    }
    QuietGrounded(disk.Raw(4), Ids());
    QuietGrounded(disk.Raw(5), Ids());
  }

  /** Layer 4 as it is loaded: layer 5 under its name, on top of layers 2 and 1. */
  lemma PermutingLoaded() returns (lowest: InternalLayer, second: InternalLayer, child: InternalLayer)
    ensures Permuting().Valid() && Permuting().NoChains() && 4 in Permuting().layers
    ensures lowest.Base? && lowest.name == 1 && second.Child? && second.name == 2 && second.parent == lowest
    ensures child.Child? && child.parent == second && child.dict == Both()
    ensures Loaded(Permuting(), 4) == Rollup(child, 4, Some(3))
  {
    hide Disk.Valid, Disk.NoChains, Loaded, Plain, Disk.Rooted, Permuting;
    PermutingIsValid();
    PermutingParts();
    var disk := Permuting();
    LoadedRollup(disk, 4);
    PlainOnParent(disk, 5);
    LoadedPlain(disk, 2);
    PlainOnParent(disk, 2);
    LoadedBase(disk, 1);
    lowest, second, child := Loaded(disk, 1), Plain(disk, 2), Plain(disk, 5);
  }

  lemma PermutingChain()
    ensures Permuting().Rooted() && 4 in Permuting().layers && Chain(Permuting(), 4, 1) == Some([2, 3, 4])
  {
    hide Disk.Rooted, Chain, Permuting;
    PermutingIsRooted();
    PermutingParts();
    ChainStep(Permuting(), 4, 1);
    ChainStep(Permuting(), 3, 1);
    ChainStep(Permuting(), 2, 1);
    assert [2] + [3] + [4] == [2, 3, 4];
  }

  lemma MisreadShape(l: InternalLayer, lowest: InternalLayer, second: InternalLayer, child: InternalLayer)
    requires lowest.Base? && lowest.name == 1 && second.Child? && second.name == 2 && second.parent == lowest
    requires child.Child? && child.parent == second && child.dict == Both() && l == Rollup(child, 4, Some(3))
    ensures l.LayerName() == 4 && l.ParentName() == Some(3)
    ensures !Blocked([2, 3, 4], 1, l) && Bound([2, 3, 4], 1, l) == 1 && !ReadRightAbove(l, 1)
  {
    hide Both, Tells;
    BothDisagree();
    AncestorStep(second, 1);
    AncestorStep(l, 1);
    assert Bound([], 1, second) == 1;
    assert [2, 3, 4][..0] == [];
    var ds := DictsUpto(l, 1);
    DictsStep(second, 1);
    DictsStep(l, 1);
    assert ds[1] == Both();
  }

  lemma DictsStep(l: InternalLayer, upto: Name)
    requires Ancestor(l, upto).Some?
    ensures var p := l.ImmediateParent().value;
      && (p.LayerName() != upto ==> Ancestor(p, upto).Some?)
      && DictsUpto(l, upto) == (if p.LayerName() == upto then [] else DictsUpto(p, upto)) + [l.Dict()]
  {
  }

  /** Rolling layer 4 up to layer 1 misreads the predicates of layer 5. */
  lemma MisreadExample()
    ensures Permuting().Valid() && Permuting().NoChains() && 4 in Permuting().layers
    ensures Loaded(Permuting(), 4).LayerName() == 4 && Misreads(Permuting(), Loaded(Permuting(), 4), 1)
  {
    hide Disk.Valid, Disk.NoChains, Loaded, Chain, Disk.Rooted, Bound, Blocked, Permuting, ReadRightAbove;
    var lowest, second, child := PermutingLoaded();
    PermutingChain();
    PermutingParts();
    MisreadShape(Loaded(Permuting(), 4), lowest, second, child);
  }

  method OpenStore(disk: Disk) returns (store: LayerStore)
    requires disk.Valid() && disk.NoChains()
    ensures fresh(store) && fresh(store.cache) && store.Valid() && store.disk == disk && !store.cache.active
  {
    hide Disk.Valid, Disk.NoChains;
    store := new LayerStore(false);
    store.disk := disk;
    store.Closed();
  }

  /** On that store the operation itself goes wrong: it is carried out and registered, and the store
      it leaves behind has a rollup that may not stand for its layer. */
  method MisreadRollup() returns (before: Disk, after: Disk)
    ensures before.Valid() && before.NoChains() && !after.Valid()
    ensures 4 in after.rollups && after.rollups[4] in after.layers && after.ParentOf(after.rollups[4]) == Some(1)
    ensures Grown(before, after)
  {
    hide Disk.Valid, Disk.NoChains, Disk.Rooted, Disk.Sound, Permuting, Loaded, Faithful, Misreads, RollsUpto, Stored,
      LayerStore.Valid, LayerCache.Valid, Delivers, Grown;
    MisreadExample();
    PermutingParts();
    before := Permuting();
    var store := OpenStore(before);
    var layer := store.GetLayer(4);
    FaithfulNamed(before, 4, layer.value);
    MisreadsRolls(before, layer.value, 1);
    store.RollupUpto(layer.value, 1, 6);
    after := store.disk;
  }
}
