/** The layers a store holds, the rollups registered for them, and what a loaded layer must agree
    with. */
module Stores {
  import opened Sorting
  import opened Triples
  import opened StackSemantics
  import opened TripleIndexes
  import opened ObjectIndexes
  import opened Dictionaries
  import opened InternalLayers
  import opened IdTranslation
  import opened StringTriples
  import opened LayerFileBuilders

  /** The files of one layer. `created` is its place in the order of creation, which the model
      keeps to speak about older and newer layers; the store's `clock` is the next place. */
  datatype Files =
    | BaseFiles(created: nat, dict: Dictionary, triples: ObjectIndex)
    | ChildFiles(created: nat, parent: Name, dict: Dictionary, pos: ObjectIndex, neg: ObjectIndex)

  datatype Disk = Disk(layers: map<Name, Files>, rollups: map<Name, Name>, clock: nat) {

    function ParentOf(n: Name): Option<Name>
      requires n in layers
    {
      if layers[n].ChildFiles? then Some(layers[n].parent) else None
    }

    /** Parents exist and are older. */
    ghost predicate Rooted() {
      forall n :: n in layers ==> RootedAt(n)
    }

    ghost predicate RootedAt(n: Name)
      requires n in layers
    {
      && layers[n].created < clock
      && (layers[n].ChildFiles? ==> layers[n].parent in layers && layers[layers[n].parent].created < layers[n].created)
    }

    /** The layer as it was originally built: no rollup substituted anywhere below it. */
    ghost function Raw(n: Name): (l: InternalLayer)
      requires Rooted() && n in layers
      ensures l.LayerName() == n && l.ParentName() == ParentOf(n)
      decreases layers[n].created
    {
      match layers[n]
      case BaseFiles(_, dict, triples) => Base(n, dict, triples)
      case ChildFiles(_, parent, dict, pos, neg) =>
        assert RootedAt(n);
        Child(n, Raw(parent), dict, pos, neg)
    }

    /** Every layer is well formed as built. */
    ghost predicate Sound() {
      Rooted() && forall n :: n in layers ==> Grounded(Raw(n))
    }

    /** `r` may be substituted for `n`: it has the same ids and triples, and hangs below the
        parent of `n`. */
    ghost predicate StandsFor(n: Name, r: Name)
      requires Sound()
    {
      && n in layers && r in layers && layers[n].created < layers[r].created
      && TablesOf(Raw(r)) == TablesOf(Raw(n)) && Raw(r).TripleSet() == Raw(n).TripleSet()
      && HangsBelow(n, r)
    }

    predicate HangsBelow(n: Name, r: Name)
      requires n in layers && r in layers
    {
      ParentOf(r).Some? ==>
        ParentOf(n).Some? && ParentOf(r).value in layers && ParentOf(n).value in layers
        && layers[ParentOf(r).value].created <= layers[ParentOf(n).value].created
    }

    ghost predicate Valid() {
      Sound() && forall n :: n in rollups ==> StandsFor(n, rollups[n])
    }

    /** No rollup has a rollup of its own. */
    predicate NoChains() {
      forall n :: n in rollups ==> rollups[n] !in rollups
    }
  }

  /* ---- what a loaded layer must be ---- */

  /** `l` has the contents of the layer called `n`. */
  ghost predicate SameContents(disk: Disk, n: Name, l: InternalLayer) {
    && disk.Sound() && n in disk.layers && Grounded(l)
    && TablesOf(l) == TablesOf(disk.Raw(n)) && l.TripleSet() == disk.Raw(n).TripleSet()
  }

  /** `l` is the layer called `n`, whether or not rollups were substituted in it. */
  ghost predicate Represents(disk: Disk, n: Name, l: InternalLayer) {
    && SameContents(disk, n, l)
    && l.LayerName() == n && l.ParentName() == disk.ParentOf(n)
    && (l.ImmediateParent().Some? ==> l.ParentName().Some?)
  }

  lemma SoundAt(disk: Disk, n: Name)
    requires disk.Sound() && n in disk.layers
    ensures Grounded(disk.Raw(n)) && disk.RootedAt(n)
  {
  }

  /** The layer as built represents itself. */
  lemma RawRepresents(disk: Disk, n: Name)
    requires disk.Sound() && n in disk.layers
    ensures Represents(disk, n, disk.Raw(n))
  {
    hide Grounded;
    SoundAt(disk, n);
  }

  lemma GroundedParts(l: InternalLayer)
    requires Grounded(l)
    ensures l.Valid() && DictsValid(l) && Named(l) && l.Dict().Valid()
    ensures TablesOf(l).Distinct() && KnowsAll(TablesOf(l), l.TripleSet())
  {
    hide InternalLayer.Valid, InternalLayer.TripleSet, Table, PredicateTable, KnowsAll, Distinct;
    TableStep(l);
  }

  /** The parts of a well-formed child layer. */
  lemma ChildParts(c: InternalLayer)
    requires c.Child? && c.Valid()
    ensures c.parent.Valid() && c.pos.Coherent() && c.neg.Coherent()
    ensures c.pos.x.subjects.Some? && c.neg.x.subjects.Some?
    ensures Elements(c.pos.x.Listing()) !! c.parent.TripleSet() && Elements(c.neg.x.Listing()) <= c.parent.TripleSet()
    ensures c.TripleSet() == c.parent.TripleSet() - Elements(c.neg.x.Listing()) + Elements(c.pos.x.Listing())
  {
    hide ObjectIndex.Coherent, TripleIndex.Listing, Elements;
    var index := LayerIndex(c.pos, Some(c.neg));
    assert c.Indexes() == [index] + c.parent.Indexes();
    assert c.Indexes()[0].Coherent();
    forall i | 0 <= i < |c.parent.Indexes()| ensures c.parent.Indexes()[i].Coherent() {
      assert c.parent.Indexes()[i] == c.Indexes()[i + 1];
    }
    assert c.Deltas()[1..] == c.parent.Deltas();
  }

  /** Putting a layer's own files on top of anything that has its parent's contents gives the
      layer's contents. */
  lemma RebasedChild(c: InternalLayer, p: InternalLayer, r: InternalLayer)
    requires c.Child? && Grounded(c) && Grounded(p)
    requires DictsValid(c.parent) && c.parent.Valid() ==>
      TablesOf(p) == TablesOf(c.parent) && p.TripleSet() == c.parent.TripleSet()
    requires r == Child(c.name, p, c.dict, c.pos, c.neg)
    ensures Grounded(r) && TablesOf(r) == TablesOf(c) && r.TripleSet() == c.TripleSet()
  {
    hide InternalLayer.Valid, InternalLayer.TripleSet, ObjectIndex.Coherent, TripleIndex.Listing, Elements, Table,
      PredicateTable, DictsValid, Distinct, KnowsAll, Dictionary.Valid, Dictionary.Outer, Dictionary.OuterPredicates;
    GroundedParts(c);
    GroundedParts(p);
    ChildParts(c);
    TableStep(c);
    ChildLayerMeans(r);
    DictsOnTop(r);
    TableStep(r);
  }

  lemma DictsOnTop(r: InternalLayer)
    requires r.Child? && r.dict.Valid() && DictsValid(r.parent)
    ensures DictsValid(r)
  {
    hide Dictionary.Valid;
  }

  /** Loading a layer's files over a loaded parent. */
  lemma ChildRepresents(disk: Disk, n: Name, p: InternalLayer, r: InternalLayer)
    requires disk.Sound() && n in disk.layers && disk.layers[n].ChildFiles?
    requires SameContents(disk, disk.layers[n].parent, p)
    requires var f := disk.layers[n]; r == Child(n, p, f.dict, f.pos, f.neg)
    ensures SameContents(disk, n, r)
    ensures p.LayerName() == disk.layers[n].parent ==> Represents(disk, n, r)
  {
    hide Grounded, InternalLayer.TripleSet, TablesOf, Disk.Sound, InternalLayer.Valid, DictsValid;
    SoundAt(disk, n);
    SoundIsRooted(disk);
    var c := disk.Raw(n);
    assert c == Child(n, disk.Raw(disk.layers[n].parent), disk.layers[n].dict, disk.layers[n].pos, disk.layers[n].neg);
    RebasedChild(c, p, r);
  }

  lemma SoundIsRooted(disk: Disk)
    requires disk.Sound()
    ensures disk.Rooted()
  {
  }

  /** A rollup substituted for a layer keeps that layer's name and parent name. */
  lemma RollupRepresents(disk: Disk, n: Name, r: Name, l: InternalLayer)
    requires disk.Sound() && disk.StandsFor(n, r) && SameContents(disk, r, l)
    requires l.ImmediateParent().Some? ==> disk.ParentOf(r).Some?
    ensures Represents(disk, n, Rollup(l, n, disk.ParentOf(n)))
  {
    hide Grounded, InternalLayer.TripleSet, TablesOf, Disk.Sound;
    RollupGrounded(l, n, disk.ParentOf(n));
  }

  lemma RollupGrounded(l: InternalLayer, n: Name, p: Option<Name>)
    requires Grounded(l)
    ensures var r := Rollup(l, n, p); Grounded(r) && TablesOf(r) == TablesOf(l) && r.TripleSet() == l.TripleSet()
  {
    hide LayerIndex.Coherent, LayerIndex.AsDelta, WellFormed, Fold, Distinct, KnowsAll, Dictionary.Valid,
      Dictionary.Outer, Dictionary.OuterPredicates;
    var r := Rollup(l, n, p);
    assert r.Indexes() == l.Indexes();
  }

  /** Two layers representing the same name cannot be told apart by name, parent or contents. */
  lemma RepresentsAgree(disk: Disk, n: Name, a: InternalLayer, b: InternalLayer)
    requires Represents(disk, n, a) && Represents(disk, n, b)
    ensures a.LayerName() == b.LayerName() && a.ParentName() == b.ParentName()
    ensures a.Valid() && b.Valid() && a.TripleSet() == b.TripleSet() && Meaning(a) == Meaning(b)
  {
    hide InternalLayer.TripleSet, Disk.Sound, InternalLayer.Valid, Table, PredicateTable, DictsValid;
  }

  /* ---- a growing store ---- */

  /** Layers are never changed or removed, only added. */
  ghost predicate Grown(before: Disk, after: Disk) {
    forall n :: n in before.layers ==> n in after.layers && after.layers[n] == before.layers[n]
  }

  lemma {:induction false} RawGrown(before: Disk, after: Disk, n: Name)
    requires before.Rooted() && after.Rooted() && Grown(before, after) && n in before.layers
    ensures after.Raw(n) == before.Raw(n) && after.ParentOf(n) == before.ParentOf(n)
    decreases before.layers[n].created
  {
    assert before.RootedAt(n);
    if before.layers[n].ChildFiles? {
      RawGrown(before, after, before.layers[n].parent);
    }
  }

  /** What represents a layer keeps representing it as the store grows. */
  lemma RepresentsGrown(before: Disk, after: Disk, n: Name, l: InternalLayer)
    requires after.Sound() && Grown(before, after) && Represents(before, n, l)
    ensures Represents(after, n, l)
  {
    hide Grounded, InternalLayer.TripleSet, TablesOf;
    RawGrown(before, after, n);
  }

  /* ---- the whole stack of a loaded layer ---- */

  /** `l` represents `n`, and so does every layer below it for its own name, which is never
      newer than the parent's. */
  ghost predicate Faithful(disk: Disk, n: Name, l: InternalLayer)
    decreases l.Size()
  {
    && Represents(disk, n, l)
    && match l.ImmediateParent()
      case None => true
      case Some(p) => Faithful(disk, p.LayerName(), p) && AtOrBelowParent(disk, p.LayerName(), n)
  }

  /** `a` is no newer than the parent of `n`. */
  predicate AtOrBelowParent(disk: Disk, a: Name, n: Name) {
    && a in disk.layers && n in disk.layers && disk.ParentOf(n).Some? && disk.ParentOf(n).value in disk.layers
    && disk.layers[a].created <= disk.layers[disk.ParentOf(n).value].created
  }

  lemma {:induction false} RawFaithful(disk: Disk, n: Name)
    requires disk.Sound() && n in disk.layers
    ensures Faithful(disk, n, disk.Raw(n))
    decreases disk.layers[n].created
  {
    hide Grounded, Represents;
    SoundAt(disk, n);
    RawRepresents(disk, n);
    if disk.layers[n].ChildFiles? {
      RawFaithful(disk, disk.layers[n].parent);
    }
  }

  lemma {:induction false} FaithfulGrown(before: Disk, after: Disk, n: Name, l: InternalLayer)
    requires after.Sound() && Grown(before, after) && Faithful(before, n, l)
    ensures Faithful(after, n, l)
    decreases l.Size()
  {
    hide Represents, Disk.Sound;
    RepresentsGrown(before, after, n, l);
    if l.ImmediateParent().Some? {
      FaithfulGrown(before, after, l.ImmediateParent().value.LayerName(), l.ImmediateParent().value);
    }
  }
}
