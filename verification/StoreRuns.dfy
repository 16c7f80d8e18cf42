/** A layer store in use: layers are committed, rolled up, squashed, loaded and dropped from the
    cache in any order, and what loading a name gives never changes. */
module StoreRuns {
  import opened Sorting
  import opened Triples
  import opened Dictionaries
  import opened InternalLayers
  import opened IdTranslation
  import opened StringTriples
  import opened Numberings
  import opened LayerBuilders
  import opened Rollups
  import opened Squashes
  import opened NetIterators
  import opened NetOfStacks
  import opened Stores
  import opened LayerStores
  import opened RollupBounds
  import opened ChangeStreams
  import opened RollupsUpto

  /* ---- growing the store ---- */

  /** The store with one more layer. */
  function Added(disk: Disk, name: Name, f: Files): Disk
    requires name !in disk.layers
  {
    Disk(disk.layers[name := f], disk.rollups, disk.clock + 1)
  }

  /** The files of a freshly built layer. */
  function FilesOf(layer: InternalLayer, created: nat): Files
    requires !layer.Rollup?
  {
    match layer
    case Base(_, dict, triples) => BaseFiles(created, dict, triples)
    case Child(_, parent, dict, pos, neg) => ChildFiles(created, parent.LayerName(), dict, pos, neg)
  }

  lemma AddedRooted(disk: Disk, name: Name, f: Files)
    requires disk.Rooted() && name !in disk.layers && f.created == disk.clock &&
      (f.ChildFiles? ==> f.parent in disk.layers)
    ensures Added(disk, name, f).Rooted() && Grown(disk, Added(disk, name, f))
  {
    var after := Added(disk, name, f);
    forall n | n in after.layers ensures after.RootedAt(n) {
      if n != name {
        assert disk.RootedAt(n);
      }
      if n == name && f.ChildFiles? {
        assert disk.RootedAt(f.parent);
      }
    }
  }

  /** A layer built on a loaded parent is well formed on the original parent too. */
  lemma AddedSound(disk: Disk, layer: InternalLayer)
    requires disk.Sound() && !layer.Rollup? && layer.LayerName() !in disk.layers && Grounded(layer)
    requires layer.Child? ==> Faithful(disk, layer.parent.LayerName(), layer.parent)
    ensures var after := Added(disk, layer.LayerName(), FilesOf(layer, disk.clock));
      && after.Sound() && Grown(disk, after) && layer.LayerName() in after.layers
      && SameContents(after, layer.LayerName(), layer)
  {
    hide Grounded, InternalLayer.TripleSet, TablesOf, InternalLayer.Valid, DictsValid;
    var name, f := layer.LayerName(), FilesOf(layer, disk.clock);
    SoundIsRooted(disk);
    AddedRooted(disk, name, f);
    var after := Added(disk, name, f);
    if layer.Child? {
      RawGrown(disk, after, layer.parent.LayerName());
      SoundAt(disk, layer.parent.LayerName());
      RebasedChild(layer, disk.Raw(layer.parent.LayerName()), after.Raw(name));
    }
    forall n | n in after.layers ensures Grounded(after.Raw(n)) {
      if n != name {
        SoundAt(disk, n);
        RawGrown(disk, after, n);
      }
    }
  }

  lemma StandsForGrown(before: Disk, after: Disk, n: Name, r: Name)
    requires before.Sound() && after.Sound() && Grown(before, after) && before.StandsFor(n, r)
    ensures after.StandsFor(n, r)
  {
    hide Grounded, InternalLayer.TripleSet, TablesOf, Disk.Sound;
    SoundIsRooted(before);
    SoundIsRooted(after);
    RawGrown(before, after, n);
    RawGrown(before, after, r);
    assert before.RootedAt(n) && before.RootedAt(r);
  }

  lemma AddedValid(disk: Disk, layer: InternalLayer)
    requires disk.Valid() && !layer.Rollup? && layer.LayerName() !in disk.layers && Grounded(layer)
    requires layer.Child? ==> Faithful(disk, layer.parent.LayerName(), layer.parent)
    ensures var after := Added(disk, layer.LayerName(), FilesOf(layer, disk.clock));
      && after.Valid() && Grown(disk, after) && SameContents(after, layer.LayerName(), layer)
      && (disk.NoChains() ==> after.NoChains())
  {
    hide Grounded, InternalLayer.TripleSet, TablesOf, Disk.StandsFor, Disk.Sound, Faithful;
    ValidIsSound(disk);
    AddedSound(disk, layer);
    var after := Added(disk, layer.LayerName(), FilesOf(layer, disk.clock));
    forall n | n in after.rollups ensures after.StandsFor(n, after.rollups[n]) {
      assert disk.StandsFor(n, disk.rollups[n]);
      StandsForGrown(disk, after, n, disk.rollups[n]);
    }
  }

  lemma StoredGrown(before: Disk, after: Disk, n: Name, l: InternalLayer)
    requires before.Valid() && after.Valid() && Grown(before, after) && Stored(before, n, l) &&
      (after.NoChains() ==> before.NoChains())
    ensures Stored(after, n, l)
  {
    hide Grounded, InternalLayer.TripleSet, TablesOf, Disk.StandsFor, Disk.Sound, Faithful, Disk.NoChains;
    ValidIsSound(before);
    ValidIsSound(after);
    RawGrown(before, after, n);
    if after.NoChains() {
      FaithfulGrown(before, after, n, l);
    }
  }

  /* ---- registering rollups ---- */

  function Registered(disk: Disk, n: Name, r: Name): Disk {
    Disk(disk.layers, disk.rollups[n := r], disk.clock)
  }

  /** No rollup is `n`. */
  predicate NoTarget(disk: Disk, n: Name) {
    forall m :: m in disk.rollups ==> disk.rollups[m] != n
  }

  lemma RegisteredSound(disk: Disk, n: Name, r: Name)
    ensures Registered(disk, n, r).Rooted() <==> disk.Rooted()
    ensures Registered(disk, n, r).Sound() <==> disk.Sound()
  {
    hide Grounded, InternalLayer.TripleSet, TablesOf;
    var after := Registered(disk, n, r);
    RootedAlike(disk, after);
    RootedAlike(after, disk);
    if disk.Rooted() {
      forall m | m in disk.layers ensures after.Raw(m) == disk.Raw(m) {
        RawGrown(disk, after, m);
      }
    }
  }

  lemma RootedAlike(a: Disk, b: Disk)
    requires a.layers == b.layers && a.clock == b.clock
    ensures a.Rooted() ==> b.Rooted()
  {
    if a.Rooted() {
      forall m | m in b.layers ensures b.RootedAt(m) {
        assert a.RootedAt(m);
      }
    }
  }

  /** A rollup may be substituted for the layer. */
  ghost predicate Substitutable(disk: Disk, n: Name, r: Name) {
    disk.Sound() && disk.StandsFor(n, r)
  }

  lemma RegisteredStandsFor(disk: Disk, n: Name, r: Name, m: Name, x: Name)
    ensures Substitutable(Registered(disk, n, r), m, x) <==> Substitutable(disk, m, x)
  {
    hide Grounded, InternalLayer.TripleSet, TablesOf, Disk.Sound, Disk.StandsFor;
    var after := Registered(disk, n, r);
    RegisteredSound(disk, n, r);
    if disk.Sound() {
      if disk.StandsFor(m, x) {
        StandsForGrown(disk, after, m, x);
      }
      if after.StandsFor(m, x) {
        StandsForGrown(after, disk, m, x);
      }
    }
  }

  /** Registering a rollup keeps the store right exactly when the rollup may be substituted. */
  lemma RegisteredValidIff(disk: Disk, n: Name, r: Name)
    ensures Registered(disk, n, r).Valid() ==> Substitutable(disk, n, r)
    ensures disk.Valid() && Substitutable(disk, n, r) ==> Registered(disk, n, r).Valid()
  {
    hide Grounded, InternalLayer.TripleSet, TablesOf, Disk.Sound, Disk.StandsFor;
    var after := Registered(disk, n, r);
    RegisteredSound(disk, n, r);
    if after.Valid() {
      assert after.StandsFor(n, after.rollups[n]);
      RegisteredStandsFor(disk, n, r, n, r);
    }
    if disk.Valid() && Substitutable(disk, n, r) {
      forall m | m in after.rollups ensures after.StandsFor(m, after.rollups[m]) {
        RegisteredStandsFor(disk, n, r, m, after.rollups[m]);
      }
    }
  }

  /** It leaves no rollup with a rollup exactly when the layer is none and the rollup has none. */
  lemma RegisteredChainsIff(disk: Disk, n: Name, r: Name)
    requires disk.NoChains() && n != r
    ensures Registered(disk, n, r).NoChains() <==> r !in disk.rollups && OthersNot(disk, n)
  {
    var after := Registered(disk, n, r);
    if after.NoChains() {
      assert after.rollups[n] == r;
      forall m | m in disk.rollups && m != n ensures disk.rollups[m] != n {
        assert after.rollups[m] == disk.rollups[m];
      }
    }
  }

  /** No other layer's rollup is `n`. */
  ghost predicate OthersNot(disk: Disk, n: Name) {
    forall m :: m in disk.rollups && m != n ==> disk.rollups[m] != n
  }

  lemma OthersAreAll(disk: Disk, n: Name)
    requires disk.Valid()
    ensures OthersNot(disk, n) <==> NoTarget(disk, n)
  {
    hide Grounded, InternalLayer.TripleSet, TablesOf, Disk.Sound, Disk.StandsFor;
    if n in disk.rollups {
      StandsForOlder(disk, n, disk.rollups[n]);
    }
  }

  lemma StandsForOlder(disk: Disk, n: Name, r: Name)
    requires disk.Sound() && disk.StandsFor(n, r)
    ensures n in disk.layers && r in disk.layers && disk.layers[n].created < disk.layers[r].created
  {
    hide Disk.Sound;
  }

  /** `upto` lies somewhere below `n`. */
  ghost predicate HasAncestor(disk: Disk, n: Name, upto: Name) {
    disk.Rooted() && n in disk.layers && Chain(disk, n, upto).Some?
  }

  /** `n` has a rollup with that parent. */
  predicate RolledUp(disk: Disk, n: Name, parent: Option<Name>) {
    n in disk.rollups && disk.rollups[n] in disk.layers && disk.ParentOf(disk.rollups[n]) == parent
  }

  predicate ChildOf(disk: Disk, n: Name, parent: Name) {
    n in disk.layers && disk.ParentOf(n) == Some(parent)
  }

  /** Exactly the layer `n` has been added. */
  predicate OneMore(before: Disk, after: Disk, n: Name) {
    n in after.layers && after.layers == before.layers[n := after.layers[n]]
  }

  /** Rolling up to `upto` writes a new layer: it is not pointless and not done already, and the
      layers above `upto` can be found. */
  ghost predicate WritesUpto(disk: Disk, layer: InternalLayer, upto: Name) {
    var name := layer.LayerName();
    && disk.Rooted() && name in disk.layers && name != upto && layer.ParentName() != Some(upto)
    && !RolledUp(disk, name, Some(upto)) && !RolledUp(disk, name, None)
    && Chain(disk, name, upto).Some? && !Blocked(Chain(disk, name, upto).value, upto, layer)
  }

  /** When rolling up to `upto` leads anywhere. */
  ghost predicate RollsUpto(disk: Disk, layer: InternalLayer, upto: Name) {
    var name := layer.LayerName();
    name == upto || layer.ParentName() == Some(upto) || RolledUp(disk, name, Some(upto)) ||
        WritesUpto(disk, layer, upto)
  }

  /** The layer written gives out ids of its own: predicates were read under the wrong map. */
  ghost predicate Misreads(disk: Disk, layer: InternalLayer, upto: Name) {
    WritesUpto(disk, layer, upto)
    && !ReadRightAbove(layer, Bound(Chain(disk, layer.LayerName(), upto).value, upto, layer))
  }

  /* ---- the store ---- */

  class LayerStore {
    var disk: Disk
    const cache: LayerCache
    // what loads under way have built and not put into the cache yet
    var loading: seq<InternalLayer>

    ghost predicate Valid()
      reads this, cache
    {
      disk.Valid() && disk.NoChains() && Cached()
    }

    /** Whatever is in the cache, or about to be put there, is right. */
    ghost predicate Cached()
      reads this, cache
    {
      cache.Valid(disk) && AllStored(disk, cache.entries, loading)
    }

    constructor (cached: bool)
      ensures Valid() && disk == Disk(map[], map[], 0) && fresh(cache) && cache.active == cached &&
        cache.entries == map[] &&
        loading == []
    {
      disk, loading := Disk(map[], map[], 0), [];
      cache := new LayerCache(cached);
    }

    /** Loads a layer by name. */
    method GetLayer(name: Name) returns (r: Option<InternalLayer>)
      requires Valid()
      modifies cache
      ensures Valid() && (r.Some? <==> name in disk.layers)
      ensures r.Some? ==> Faithful(disk, name, r.value)
      ensures r.Some? && !cache.active ==> r.value == Loaded(disk, name)
    {
      hide Disk.Valid, Disk.NoChains, Stored, Faithful, Delivers, Loaded;
      r := GetLayerWithCache(disk, name, cache);
    }

    /** A load up to the point where it puts what it has built into the cache: it reads the disk and
        finds layers in the cache, and its results wait to be cached. */
    method BeginLoad(name: Name) returns (r: Option<InternalLayer>)
      requires Valid()
      modifies this`loading
      ensures Valid() && (r.Some? <==> name in disk.layers)
      ensures r.Some? ==> Faithful(disk, name, r.value)
      ensures old(loading) <= loading && (r.Some? && cache.active && !r.value.Rollup? ==> r.value in loading)
    {
      hide Disk.Valid, Disk.NoChains, Stored, Faithful, Delivers, Loaded;
      var own := new LayerCache(cache.active);
      own.entries := cache.entries;
      r := GetLayerWithCache(disk, name, own);
      var built := LayersOf(disk, own.entries);
      loading := loading + built;
    }

    /** Puts one layer a load has built into the cache, whatever has happened since. */
    method CacheLoaded(k: nat)
      requires Valid() && k < |loading|
      modifies this`loading, cache
      ensures Valid() && loading == old(loading)[..k] + old(loading)[k + 1..]
      ensures cache.entries == if cache.active then old(cache.entries)[old(loading)[k].LayerName() := old(loading)[k]]
        else old(cache.entries)
    {
      hide Disk.Valid, Disk.NoChains, Stored;
      cache.CacheLayer(loading[k], disk);
      loading := loading[..k] + loading[k + 1..];
    }

    /** Finalizes a freshly built layer, whatever is in it. */
    method WriteLayer(layer: InternalLayer)
      requires !layer.Rollup? && layer.LayerName() !in disk.layers
      modifies this`disk
      ensures disk == Added(old(disk), layer.LayerName(), FilesOf(layer, old(disk).clock))
    {
      disk := Added(disk, layer.LayerName(), FilesOf(layer, disk.clock));
    }

    /** Finalizes a freshly built layer that is well formed. */
    method AddLayer(layer: InternalLayer)
      requires Valid() && !layer.Rollup? && layer.LayerName() !in disk.layers && Grounded(layer)
      requires layer.Child? ==> Faithful(disk, layer.parent.LayerName(), layer.parent)
      modifies this`disk
      ensures Valid() && Grown(old(disk), disk) && SameContents(disk, layer.LayerName(), layer)
      ensures disk == Added(old(disk), layer.LayerName(), FilesOf(layer, old(disk).clock))
    {
      hide Disk.Valid, Disk.NoChains, Stored, Faithful, Grounded, SameContents, Grown;
      ghost var before := disk;
      WriteLayer(layer);
      AddedValid(before, layer);
      AddedChains(before, disk);
      CacheGrown(cache.entries, loading, before, disk);
    }

    /** Builds and commits a layer: a base layer, or a child of an existing one. */
    method Commit(name: Name, parent: Option<Name>, adds: seq<StringTriple>,
        removes: seq<StringTriple>) returns (done: bool)
      requires Valid() && name !in disk.layers
      modifies this`disk, cache
      ensures Valid() && Grown(old(disk), disk) && disk.rollups == old(disk).rollups
      ensures done <==> parent.None? || parent.value in old(disk).layers
      ensures done ==> disk.Sound() && name in disk.layers && disk.ParentOf(name) == parent && Grounded(disk.Raw(name))
      ensures done && parent.None? ==> Meaning(disk.Raw(name)) == Committed({}, Elements(adds), Elements(removes))
      ensures done && parent.Some? ==>
        parent.value in disk.layers && Grounded(disk.Raw(parent.value)) &&
        Meaning(disk.Raw(name)) == Committed(Meaning(disk.Raw(parent.value)), Elements(adds), Elements(removes))
    {
      hide Disk.Valid, Disk.NoChains, Stored, Faithful, Grounded, SameContents, GroundedParent,
        SimpleLayerBuilder.Valid, SimpleLayerBuilder.Additions, SimpleLayerBuilder.Removals, CommitOf, Committed,
        Meaning, LayerStore.Valid, BaseMeaning, Grown;
      Opened();
      var parentLayer: Option<InternalLayer> := None;
      if parent.Some? {
        parentLayer := GetLayer(parent.value);
        if parentLayer.None? {
          GrownSelf(disk);
          return false;
        }
        FaithfulGrounded(disk, parent.value, parentLayer.value);
      }
      GroundedOption(parentLayer);
      var builder := new SimpleLayerBuilder(name, parentLayer);
      FillBuilder(builder, adds, removes);
      var layer := builder.Commit();
      ghost var before := disk;
      CommittedBy(layer, name, parentLayer, Elements(adds), Elements(removes));
      AddLayer(layer);
      Opened();
      done := true;
      CommittedOnDisk(before, disk, layer, parentLayer, Elements(adds), Elements(removes));
    }

    lemma Opened()
      requires Valid()
      ensures disk.Valid() && disk.Sound() && disk.Rooted() && disk.NoChains() && Cached()
    {
      ValidIsSound(disk);
    }

    lemma Closed()
      requires disk.Valid() && disk.NoChains() && Cached()
      ensures Valid()
    {
    }

    /** Records the rollup, unless it is the layer itself, and drops the layer's whole chain from the
        cache. A valid store stays so exactly when the rollup may be substituted for the layer,
        has no rollup itself and the layer is nobody's rollup. */
    method RegisterRollup(layer: Name, rollup: Name)
      requires disk.Rooted() && layer in disk.layers && rollup in disk.layers
      modifies this`disk, cache
      ensures disk == if layer == rollup then old(disk) else Registered(old(disk), layer, rollup)
      ensures cache.entries == old(cache.entries) - Elements(old(Lineage(disk, layer)))
      ensures Linked(old(disk), old(Lineage(disk, layer)), None, layer)
      ensures layer != rollup && disk.Valid() ==> Substitutable(old(disk), layer, rollup)
      ensures old(Valid()) && (layer == rollup || Substitutable(old(disk), layer, rollup)) ==>
        disk.Valid() && Cached()
      ensures old(Valid()) ==> (disk.NoChains() <==>
        layer == rollup || (rollup !in old(disk).rollups && NoTarget(old(disk), layer)))
    {
      hide Disk.Valid, Disk.NoChains, Stored, Disk.StandsFor, Disk.Sound, Registered, Disk.ParentOf, Lineage,
        Disk.Rooted, NoTarget, OthersNot, Substitutable;
      var stack := StackNames(disk, layer);
      if layer != rollup {
        disk := Registered(disk, layer, rollup);
        RegisteredCache(old(disk), layer, rollup, old(cache.entries), loading);
      }
      for i := 0 to |stack|
        invariant cache.entries == old(cache.entries) - Elements(stack[..i])
        modifies cache
      {
        cache.Invalidate(stack[i]);
        ElementsNext(stack, i);
      }
      ElementsWhole(stack);
    }

    /** Rolls a layer up into a base layer, unless that has been done or there is nothing to roll
        up; its own name then inhibits registering it. */
    method PerformRollup(layer: InternalLayer, fresh_: Name) returns (r: Name)
      requires Valid() && Faithful(disk, layer.LayerName(), layer) && fresh_ !in disk.layers
      modifies this`disk
      ensures Valid() && Grown(old(disk), disk) && disk.rollups == old(disk).rollups && disk.Sound() &&
        layer.LayerName() in disk.layers
      ensures r in disk.layers && (r == layer.LayerName() ||
        (disk.StandsFor(layer.LayerName(), r) && r !in disk.rollups))
      ensures r == layer.LayerName() <==> layer.ParentName().None?
      ensures layer.ParentName().Some? ==> disk.ParentOf(r).None?
      ensures disk == old(disk) || (r == fresh_ && disk.layers == old(disk).layers[fresh_ := disk.layers[fresh_]] &&
        !RolledUp(old(disk), layer.LayerName(), None))
    {
      hide Disk.Valid, Disk.NoChains, Stored, Faithful, Grounded, Disk.StandsFor, Disk.Sound, SameContents, Meaning,
        TablesOf, InternalLayer.TripleSet, InternalLayer.Valid, LayerStore.Valid, Grown;
      var name := layer.LayerName();
      Opened();
      GrownSelf(disk);
      FaithfulNamed(disk, name, layer);
      if layer.ParentName().None? {
        return name;
      }
      if name in disk.rollups {
        var rollup := disk.rollups[name];
        ExistingRollup(disk, name);
        if disk.ParentOf(rollup).None? {
          return rollup;
        }
      }
      var built := DeltaRollup(layer, fresh_);
      ghost var before := disk;
      AddLayer(built);
      Opened();
      NewRollup(before, disk, layer, built);
      r := fresh_;
    }

    /** Rolls a layer up into a base layer and registers the result. The store is right afterwards;
        it has a rollup with a rollup exactly when the layer was itself a rollup. */
    method Rollup(layer: InternalLayer, fresh_: Name)
      requires Valid() && Faithful(disk, layer.LayerName(), layer) && fresh_ !in disk.layers
      modifies this`disk, cache
      ensures disk.Valid() && Cached() && Grown(old(disk), disk)
      ensures disk.NoChains() <==> layer.ParentName().None? || NoTarget(old(disk), layer.LayerName())
      ensures if layer.ParentName().None? then disk == old(disk) else
        RolledUp(disk, layer.LayerName(), None) &&
        disk.rollups == old(disk).rollups[layer.LayerName() := disk.rollups[layer.LayerName()]]
    {
      hide Disk.Valid, Disk.NoChains, Stored, Faithful, Grounded, Disk.StandsFor, Disk.Sound, Disk.Rooted,
        SameContents, Meaning, TablesOf, LayerStore.Valid, Grown, Lineage, NoTarget;
      FaithfulNamed(disk, layer.LayerName(), layer);
      ghost var before := disk;
      var rollup := PerformRollup(layer, fresh_);
      Opened();
      ghost var middle := disk;
      SameTargets(before, disk, layer.LayerName());
      RegisterRollup(layer.LayerName(), rollup);
      RegisteredGrown(before, middle, disk, layer.LayerName(), rollup);
    }

    /** Rolls a layer up to one of its ancestors. Fails exactly where the source reports an error or
        panics. What it writes may stand for the layer exactly when no predicate was misread. */
    method PerformRollupUpto(layer: InternalLayer, upto: Name, fresh_: Name) returns (r: Option<Name>)
      requires Valid() && Faithful(disk, layer.LayerName(), layer) && fresh_ !in disk.layers
      modifies this`disk, cache
      ensures r.Some? <==> RollsUpto(old(disk), layer, upto)
      ensures r == Some(layer.LayerName()) <==> upto == layer.LayerName() || layer.ParentName() == Some(upto)
      ensures disk.Rooted() && Grown(old(disk), disk) && disk.rollups == old(disk).rollups
      ensures disk == old(disk) || (r == Some(fresh_) && OneMore(old(disk), disk, fresh_))
      ensures layer.LayerName() in disk.layers && (r.Some? ==> r.value in disk.layers)
      ensures r.Some? && r.value != layer.LayerName() ==> ChildOf(disk, r.value, upto) && r.value !in disk.rollups
      ensures r.Some? && r.value != layer.LayerName() ==>
        (Substitutable(disk, layer.LayerName(), r.value) <==> !Misreads(old(disk), layer, upto))
      ensures !Misreads(old(disk), layer, upto) ==> Valid()
    {
      hide Disk.Valid, Disk.NoChains, Stored, Faithful, Grounded, Disk.StandsFor, Disk.Sound, Disk.Rooted,
        SameContents, Meaning, TablesOf, DictsValid, InternalLayer.TripleSet, InternalLayer.Valid, LayerStore.Valid,
        Grown, Blocked, ReadRight, ReadRightAbove, Bound, Chain, KeepsIds, RolledUp, Substitutable, WritesPredicates,
        Linked;
      var name := layer.LayerName();
      Opened();
      GrownSelf(disk);
      FaithfulNamed(disk, name, layer);
      if name == upto || layer.ParentName() == Some(upto) {
        return Some(name);
      }
      if name in disk.rollups {
        var rollup := disk.rollups[name];
        ExistingRollup(disk, name);
        RolledUpIs(disk, name);
        if disk.ParentOf(rollup).None? {
          return None;
        }
        if upto == disk.ParentOf(rollup).value {
          return Some(rollup);
        }
      }
      NotRolledUp(disk, name, upto);
      var uptoLayer := GetLayer(upto);
      if uptoLayer.None? {
        NoChain(disk, name, upto);
        return None;
      }
      FaithfulNamed(disk, upto, uptoLayer.value);
      var names := StackNamesUpto(disk, name, upto);
      if names.None? || Blocked(names.value, upto, layer) {
        return None;
      }
      Opened();
      var built := DeltaRollupUpto(disk, layer, upto, uptoLayer.value, fresh_);
      ghost var before := disk;
      ChainIsOlder(before, name, upto);
      WriteLayer(built);
      WrittenRollup(before, disk, layer, uptoLayer.value, built, upto, cache.entries, loading);
      if KeepsIds(built, layer) {
        Closed();
      }
      r := Some(fresh_);
    }

    /** Rolls a layer up to an ancestor and registers the result, if that can be done. The store is
        right afterwards exactly when no predicate was misread; it has a rollup with a rollup
        exactly when the layer was itself a rollup. */
    method RollupUpto(layer: InternalLayer, upto: Name, fresh_: Name)
      requires Valid() && Faithful(disk, layer.LayerName(), layer) && fresh_ !in disk.layers
      modifies this`disk, cache
      ensures Grown(old(disk), disk)
      ensures disk.Valid() <==> !Misreads(old(disk), layer, upto)
      ensures !Misreads(old(disk), layer, upto) ==> Cached()
      ensures !Misreads(old(disk), layer, upto) ==> (disk.NoChains() <==>
        !RollsUpto(old(disk), layer, upto) || upto == layer.LayerName() || layer.ParentName() == Some(upto) ||
        NoTarget(old(disk), layer.LayerName()))
      ensures if RollsUpto(old(disk), layer, upto) && upto != layer.LayerName() && layer.ParentName() != Some(upto)
        then RolledUp(disk, layer.LayerName(), Some(upto)) &&
          disk.rollups == old(disk).rollups[layer.LayerName() := disk.rollups[layer.LayerName()]]
        else disk == old(disk)
    {
      hide Disk.Valid, Disk.NoChains, Stored, Faithful, Grounded, Disk.StandsFor, Disk.Sound, Disk.Rooted,
        SameContents, Meaning, TablesOf, LayerStore.Valid, Grown, Lineage, RollsUpto, Misreads, NoTarget, Substitutable;
      FaithfulNamed(disk, layer.LayerName(), layer);
      Opened();
      GrownSelf(disk);
      if Misreads(disk, layer, upto) {
        MisreadsRolls(disk, layer, upto);
      }
      ghost var before := disk;
      var rollup := PerformRollupUpto(layer, upto, fresh_);
      if rollup.None? {
        Opened();
        return;
      }
      ghost var middle := disk;
      SameTargets(before, disk, layer.LayerName());
      RegisterRollup(layer.LayerName(), rollup.value);
      RegisteredGrown(before, middle, disk, layer.LayerName(), rollup.value);
    }

    /** Squashes a layer's whole stack into a new base layer with the same contents. */
    method SquashLayer(layer: InternalLayer, fresh_: Name)
      requires Valid() && Faithful(disk, layer.LayerName(), layer) && fresh_ !in disk.layers
      modifies this`disk
      ensures Valid() && Grown(old(disk), disk) && disk.Sound() && fresh_ in disk.layers && Grounded(layer) &&
        Grounded(disk.Raw(fresh_))
      ensures Meaning(disk.Raw(fresh_)) == Meaning(layer)
      ensures disk.ParentOf(fresh_).None? && disk.rollups == old(disk).rollups &&
        disk.layers == old(disk).layers[fresh_ := disk.layers[fresh_]]
    {
      hide Disk.Valid, Disk.NoChains, Stored, Faithful, Grounded, Disk.Sound, SameContents, Meaning, LayerStore.Valid,
        Grown;
      FaithfulGrounded(disk, layer.LayerName(), layer);
      var built := Squash(layer, fresh_);
      AddLayer(built);
      Opened();
      SameMeaningOnDisk(disk, fresh_, built);
    }

    /** Squashes the layers above `upto` into one new child of it, with the same contents. The
        source reports an error when `upto` is not below the layer. */
    method SquashLayerUpto(name: Name, upto: Name, fresh_: Name) returns (done: bool)
      requires Valid() && name in disk.layers && fresh_ !in disk.layers
      modifies this`disk, cache
      ensures done <==> HasAncestor(old(disk), name, upto)
      ensures !done ==> disk == old(disk)
      ensures done ==>
        fresh_ in disk.layers && disk.rollups == old(disk).rollups &&
        disk.layers == old(disk).layers[fresh_ := disk.layers[fresh_]]
      ensures done ==> SquashedOnto(disk, name, upto, fresh_)
      ensures Valid() && Grown(old(disk), disk)
    {
      hide Disk.Valid, Disk.NoChains, Stored, Faithful, Grounded, Disk.StandsFor, Disk.Sound, Disk.Rooted, Disk.Raw,
        SameContents, Meaning, TablesOf, DictsValid, InternalLayer.TripleSet, InternalLayer.Valid, LayerStore.Valid,
        Grown, Chain, OnTopOf, StackAbove, IsDifference, Extended, DecodeAll, UsesEntry, UsesPredicate, SquashedOnto;
      Opened();
      GrownSelf(disk);
      var names := StackNamesUpto(disk, name, upto);
      if names.None? {
        return false;
      }
      ChainIsOlder(disk, name, upto);
      var ds := DiskDicts(disk, name, upto);
      var changes := ChangesOnDisk(disk, name, upto);
      var uptoLayer := GetLayer(upto);
      FaithfulNamed(disk, upto, uptoLayer.value);
      FaithfulIsSame(disk, upto, uptoLayer.value);
      StackOnDisk(disk, name, upto, uptoLayer.value, ds);
      ghost var top := disk.Raw(name).TripleSet();
      var built := SquashUpto(fresh_, uptoLayer.value, ds, changes, top);
      ghost var before := disk;
      AddLayer(built);
      Opened();
      SquashedOnDisk(before, disk, name, upto, uptoLayer.value, built);
      done := true;
    }

    /** Drops one layer from the cache. */
    method Invalidate(name: Name)
      requires Valid()
      modifies cache
      ensures Valid() && cache.entries == old(cache.entries) - {name}
    {
      hide Disk.Valid, Disk.NoChains, Stored;
      cache.Invalidate(name);
    }
  }

  /** The names from the base to `n`. */
  ghost function Lineage(disk: Disk, n: Name): seq<Name>
    requires disk.Rooted() && n in disk.layers
    decreases disk.layers[n].created
  {
    assert disk.RootedAt(n);
    (if disk.ParentOf(n).None? then [] else Lineage(disk, disk.ParentOf(n).value)) + [n]
  }

  /** Walks from `name` to the base (`retrieve_layer_stack_names`). */
  method StackNames(disk: Disk, name: Name) returns (result: seq<Name>)
    requires disk.Rooted() && name in disk.layers
    ensures result == Lineage(disk, name) && Linked(disk, result, None, name)
  {
    hide Disk.Rooted, Disk.ParentOf, Linked;
    LineageLinked(disk, name);
    result := [];
    var current := name;
    while true
      invariant current in disk.layers && disk.Rooted() && Lineage(disk, name) == Lineage(disk, current) + result
      decreases disk.layers[current].created
    {
      LineageStep(disk, current);
      result := [current] + result;
      if disk.ParentOf(current).None? {
        return;
      }
      current := disk.ParentOf(current).value;
    }
  }

  lemma {:induction false} LineageLinked(disk: Disk, n: Name)
    requires disk.Rooted() && n in disk.layers
    ensures Linked(disk, Lineage(disk, n), None, n)
    decreases disk.layers[n].created
  {
    LineageStep(disk, n);
    if disk.ParentOf(n).Some? {
      LineageLinked(disk, disk.ParentOf(n).value);
    }
  }

  lemma LineageStep(disk: Disk, n: Name)
    requires disk.Rooted() && n in disk.layers
    ensures disk.ParentOf(n).None? ==> Lineage(disk, n) == [n]
    ensures disk.ParentOf(n).Some? ==> var p := disk.ParentOf(n).value;
      p in disk.layers && disk.layers[p].created < disk.layers[n].created &&
      Lineage(disk, n) == Lineage(disk, p) + [n]
  {
    assert disk.RootedAt(n);
  }

  lemma FaithfulNamed(disk: Disk, n: Name, l: InternalLayer)
    requires Faithful(disk, n, l)
    ensures l.LayerName() == n && n in disk.layers && l.ParentName() == disk.ParentOf(n)
    ensures Grounded(l) && DictsValid(l)
  {
    hide InternalLayer.TripleSet, InternalLayer.Valid, Disk.Sound, TablesOf;
  }

  lemma ExistingRollup(disk: Disk, n: Name)
    requires disk.Valid() && disk.NoChains() && n in disk.rollups
    ensures Substitutable(disk, n, disk.rollups[n])
    ensures disk.Sound() && disk.StandsFor(n, disk.rollups[n]) && disk.rollups[n] in disk.layers &&
      disk.rollups[n] !in disk.rollups
  {
    hide Disk.StandsFor, Disk.Sound;
    StandsForOlder(disk, n, disk.rollups[n]);
  }

  lemma SameTargets(before: Disk, after: Disk, n: Name)
    requires before.rollups == after.rollups
    ensures NoTarget(before, n) == NoTarget(after, n)
  {
  }

  lemma GrownTwice(a: Disk, b: Disk, c: Disk)
    requires Grown(a, b) && Grown(b, c)
    ensures Grown(a, c)
  {
  }

  /** An ancestor is no newer than the parent. */
  lemma {:induction false} ChainIsOlder(disk: Disk, n: Name, upto: Name)
    requires disk.Rooted() && n in disk.layers && Chain(disk, n, upto).Some?
    ensures upto in disk.layers && disk.ParentOf(n).Some? && disk.ParentOf(n).value in disk.layers
    ensures disk.layers[upto].created <= disk.layers[disk.ParentOf(n).value].created
    decreases disk.layers[n].created
  {
    assert disk.RootedAt(n);
    var p := disk.ParentOf(n).value;
    if p != upto {
      ChainIsOlder(disk, p, upto);
      assert disk.RootedAt(p);
    }
  }

  lemma NoChain(disk: Disk, n: Name, upto: Name)
    requires disk.Rooted() && n in disk.layers && upto !in disk.layers
    ensures Chain(disk, n, upto).None?
  {
    hide Disk.Rooted, Chain;
    if Chain(disk, n, upto).Some? {
      ChainIsOlder(disk, n, upto);
    }
  }

  lemma RolledUpIs(disk: Disk, n: Name)
    requires n in disk.rollups && disk.rollups[n] in disk.layers
    ensures forall p :: RolledUp(disk, n, p) <==> disk.ParentOf(disk.rollups[n]) == p
  {
  }

  predicate OtherParent(disk: Disk, n: Name, upto: Name)
    requires n in disk.layers
  {
    disk.ParentOf(n).Some? && disk.ParentOf(n).value != upto
  }

  lemma NotRolledUp(disk: Disk, n: Name, upto: Name)
    requires n in disk.rollups ==> disk.rollups[n] in disk.layers && OtherParent(disk, disk.rollups[n], upto)
    ensures !RolledUp(disk, n, None) && !RolledUp(disk, n, Some(upto))
  {
  }

  lemma MisreadsRolls(disk: Disk, layer: InternalLayer, upto: Name)
    requires Misreads(disk, layer, upto)
    ensures RollsUpto(disk, layer, upto) && layer.LayerName() != upto && layer.ParentName() != Some(upto)
  {
    hide ReadRightAbove, Chain, Bound, Blocked, Disk.Rooted;
  }

  lemma RegisteredGrown(before: Disk, middle: Disk, after: Disk, n: Name, r: Name)
    requires Grown(before, middle) && after == if n == r then middle else Registered(middle, n, r)
    ensures Grown(before, after) && after.layers == middle.layers
    ensures after.rollups == if n == r then middle.rollups else middle.rollups[n := r]
  {
  }

  ghost predicate AllStored(disk: Disk, entries: map<Name, InternalLayer>, loading: seq<InternalLayer>) {
    && (forall n :: n in entries ==> Stored(disk, n, entries[n]))
    && (forall i :: 0 <= i < |loading| ==> Stored(disk, loading[i].LayerName(), loading[i]))
  }

  /** The layers a cache holds, in any order. */
  method LayersOf(ghost disk: Disk, entries: map<Name, InternalLayer>) returns (layers: seq<InternalLayer>)
    requires AllStored(disk, entries, [])
    ensures AllStored(disk, entries, layers) && forall n :: n in entries ==> entries[n] in layers
  {
    hide Stored;
    layers := [];
    var left := entries.Keys;
    while left != {}
      invariant left <= entries.Keys && AllStored(disk, entries, layers)
      invariant forall n :: n in entries && n !in left ==> entries[n] in layers
      decreases |left|
    {
      var n :| n in left;
      left := left - {n};
      StoredName(disk, n, entries[n]);
      layers := layers + [entries[n]];
    }
  }

  /** What registering does to the cached layers and to the store as a whole. */
  lemma RegisteredCache(disk: Disk, n: Name, r: Name, entries: map<Name, InternalLayer>,
      loading: seq<InternalLayer>)
    requires n != r
    ensures Registered(disk, n, r).Valid() ==> Substitutable(disk, n, r)
    ensures disk.Valid() && disk.NoChains() ==>
      (Registered(disk, n, r).NoChains() <==> r !in disk.rollups && NoTarget(disk, n))
    ensures disk.Valid() && disk.NoChains() && Substitutable(disk, n, r) && AllStored(disk, entries, loading) ==>
      Registered(disk, n, r).Valid() && AllStored(Registered(disk, n, r), entries, loading)
  {
    hide Disk.Valid, Disk.NoChains, Stored, Grown, Disk.Sound, Disk.StandsFor, NoTarget, OthersNot, Substitutable;
    RegisteredValidIff(disk, n, r);
    if disk.Valid() && disk.NoChains() {
      RegisteredChainsIff(disk, n, r);
      OthersAreAll(disk, n);
      if Substitutable(disk, n, r) && AllStored(disk, entries, loading) {
        GrownSelf(disk);
        RegisteredGrown(disk, disk, Registered(disk, n, r), n, r);
        CacheGrown(entries, loading, disk, Registered(disk, n, r));
      }
    }
  }

  /** What writing a layer rolled up to `upto` does: the store stays valid, and the layer may stand
      for the original, if it keeps the ids; otherwise it may not. */
  lemma WrittenRollup(before: Disk, after: Disk, layer: InternalLayer, uptoLayer: InternalLayer, built: InternalLayer,
      upto: Name, entries: map<Name, InternalLayer>, loading: seq<InternalLayer>)
    requires before.Valid() && before.Rooted() && before.NoChains() && Faithful(before, layer.LayerName(), layer) &&
      Faithful(before, upto, uptoLayer)
    requires built.Child? && built.parent == uptoLayer && built.name !in before.layers && built.Valid() &&
      built.TripleSet() == layer.TripleSet()
    requires after == Added(before, built.name, FilesOf(built, before.clock))
    requires KeepsIds(built, layer) ==> Grounded(built)
    requires layer.LayerName() in before.layers && upto in before.layers && before.ParentOf(layer.LayerName()).Some? &&
      before.ParentOf(layer.LayerName()).value in before.layers &&
      before.layers[upto].created <= before.layers[before.ParentOf(layer.LayerName()).value].created
    requires AllStored(before, entries, loading)
    ensures after.Rooted() && Grown(before, after) && after.rollups == before.rollups
    ensures OneMore(before, after, built.name) && ChildOf(after, built.name, upto) && built.name !in after.rollups
    ensures KeepsIds(built, layer) ==> after.Valid() && after.NoChains() && AllStored(after, entries, loading)
    ensures Substitutable(after, layer.LayerName(), built.name) <==> KeepsIds(built, layer)
  {
    hide Disk.Valid, Disk.NoChains, Stored, Faithful, Grounded, Disk.StandsFor, Disk.Sound, SameContents, TablesOf,
      DictsValid, InternalLayer.TripleSet, InternalLayer.Valid, KeepsIds, Grown, Disk.Rooted;
    ValidIsSound(before);
    FaithfulNamed(before, upto, uptoLayer);
    FaithfulNamed(before, layer.LayerName(), layer);
    AddedFiles(before, after, built, upto);
    RollupsOnDisk(before);
    if KeepsIds(built, layer) {
      AddedValid(before, built);
      CacheGrown(entries, loading, before, after);
      KeptRollup(before, after, layer, built);
    }
    RawGrown(before, after, upto);
    RawGrown(before, after, layer.LayerName());
    if Substitutable(after, layer.LayerName(), built.name) {
      SubstituteTables(after, layer.LayerName(), built.name);
      FaithfulIsSame(before, upto, uptoLayer);
      FaithfulIsSame(before, layer.LayerName(), layer);
      RawIsChild(after, built, upto);
      SubstituteKeepsIds(after.Raw(upto), after.Raw(layer.LayerName()), after.Raw(built.name), layer, built);
    }
  }

  /** Only layers on disk have rollups. */
  lemma RollupsOnDisk(disk: Disk)
    requires disk.Valid()
    ensures forall n :: n in disk.rollups ==> n in disk.layers
  {
    hide Disk.Sound, Grounded, InternalLayer.TripleSet, TablesOf;
    forall n | n in disk.rollups ensures n in disk.layers {
      assert disk.StandsFor(n, disk.rollups[n]);
    }
  }

  lemma AddedFiles(before: Disk, after: Disk, built: InternalLayer, upto: Name)
    requires before.Rooted() && built.Child? && built.parent.LayerName() == upto && upto in before.layers
    requires built.name !in before.layers && after == Added(before, built.name, FilesOf(built, before.clock))
    ensures after.Rooted() && Grown(before, after) && after.rollups == before.rollups
    ensures OneMore(before, after, built.name) && ChildOf(after, built.name, upto)
    ensures after.layers[built.name] == FilesOf(built, before.clock)
  {
    hide Grown;
    AddedRooted(before, built.name, FilesOf(built, before.clock));
  }

  lemma KeptRollup(before: Disk, after: Disk, layer: InternalLayer, built: InternalLayer)
    requires before.Valid() && after.Valid() && Faithful(before, layer.LayerName(), layer)
    requires built.Child? && built.name !in before.layers &&
      after == Added(before, built.name, FilesOf(built, before.clock))
    requires SameContents(after, built.name, built) && KeepsIds(built, layer) && built.TripleSet() == layer.TripleSet()
    requires built.parent.LayerName() in before.layers && layer.LayerName() in before.layers &&
      before.ParentOf(layer.LayerName()).Some? && before.ParentOf(layer.LayerName()).value in before.layers &&
      before.layers[built.parent.LayerName()].created <=
        before.layers[before.ParentOf(layer.LayerName()).value].created
    ensures Substitutable(after, layer.LayerName(), built.name)
  {
    hide Disk.Valid, Disk.StandsFor, Disk.Sound, SameContents, InternalLayer.TripleSet, InternalLayer.Valid, Grounded,
      Faithful, DictsValid, TablesOf;
    FaithfulGrounded(before, layer.LayerName(), layer);
    NewRollup(before, after, layer, built);
  }

  /** A layer that may stand for the original keeps its ids. */
  lemma SubstituteKeepsIds(rawUpto: InternalLayer, rawLayer: InternalLayer, rawBuilt: InternalLayer,
      layer: InternalLayer, built: InternalLayer)
    requires built.Child? && rawBuilt == Child(built.name, rawUpto, built.dict, built.pos, built.neg)
    requires DictsValid(rawUpto) && DictsValid(built.parent) && TablesOf(built.parent) == TablesOf(rawUpto)
    requires DictsValid(rawLayer) && DictsValid(layer) && TablesOf(layer) == TablesOf(rawLayer)
    requires DictsValid(rawBuilt) && TablesOf(rawBuilt) == TablesOf(rawLayer)
    ensures KeepsIds(built, layer)
  {
    hide Table, PredicateTable, DictsValid;
    SameBelow(rawBuilt, built);
  }

  lemma SubstituteTables(disk: Disk, n: Name, r: Name)
    requires Substitutable(disk, n, r) && disk.Rooted() && n in disk.layers && r in disk.layers
    ensures DictsValid(disk.Raw(n)) && DictsValid(disk.Raw(r)) && TablesOf(disk.Raw(r)) == TablesOf(disk.Raw(n))
  {
    hide InternalLayer.TripleSet, InternalLayer.Valid, Table, PredicateTable, DictsValid, Grounded;
    SoundAt(disk, n);
    SoundAt(disk, r);
    GroundedParts(disk.Raw(n));
    GroundedParts(disk.Raw(r));
  }

  lemma RawIsChild(disk: Disk, built: InternalLayer, upto: Name)
    requires disk.Rooted() && built.Child? && built.parent.LayerName() == upto && upto in disk.layers
    requires built.name in disk.layers && disk.layers[built.name] == FilesOf(built, disk.layers[built.name].created)
    ensures disk.Raw(built.name) == Child(built.name, disk.Raw(upto), built.dict, built.pos, built.neg)
  {
  }

  /** Layers with the same dictionary on top of parents with the same ids give out the same ids. */
  lemma SameBelow(a: InternalLayer, b: InternalLayer)
    requires a.Child? && b.Child? && a.dict == b.dict && DictsValid(a)
    requires DictsValid(a.parent) && DictsValid(b.parent) && TablesOf(a.parent) == TablesOf(b.parent)
    ensures DictsValid(b) && TablesOf(a) == TablesOf(b)
  {
    hide Dictionary.Valid, Dictionary.Outer, Dictionary.OuterPredicates, Table, PredicateTable, DictsValid;
    TableStep(a);
    DictsOnTop(b);
    TableStep(b);
  }

  /** A freshly built layer with the ids and triples of `layer` may be substituted for it. */
  lemma NewRollup(before: Disk, after: Disk, layer: InternalLayer, built: InternalLayer)
    requires before.Valid() && after.Valid() && Faithful(before, layer.LayerName(), layer)
    requires !built.Rollup? && built.LayerName() !in before.layers &&
      after == Added(before, built.LayerName(), FilesOf(built, before.clock))
    requires SameContents(after, built.LayerName(), built) && Grounded(layer) && TablesOf(built) == TablesOf(layer) &&
      built.TripleSet() == layer.TripleSet()
    requires built.Child? ==>
      built.parent.LayerName() in before.layers && layer.LayerName() in before.layers &&
      before.ParentOf(layer.LayerName()).Some? && before.ParentOf(layer.LayerName()).value in before.layers &&
      before.layers[built.parent.LayerName()].created <= before.layers[before.ParentOf(layer.LayerName()).value].created
    ensures after.Sound() && layer.LayerName() in after.layers && after.StandsFor(layer.LayerName(), built.LayerName())
    ensures built.LayerName() !in after.rollups
  {
    hide Grounded, InternalLayer.TripleSet, TablesOf, Disk.Sound, InternalLayer.Valid, DictsValid;
    var name := layer.LayerName();
    ValidIsSound(before);
    ValidIsSound(after);
    assert before.RootedAt(name) && after.RootedAt(built.LayerName());
    RawGrown(before, after, name);
  }

  lemma AddedChains(before: Disk, after: Disk)
    requires after.rollups == before.rollups
    ensures after.NoChains() == before.NoChains()
  {
  }

  lemma GrownSelf(disk: Disk)
    ensures Grown(disk, disk)
  {
  }

  lemma CacheGrown(entries: map<Name, InternalLayer>, loading: seq<InternalLayer>, before: Disk, after: Disk)
    requires before.Valid() && after.Valid() && Grown(before, after) && before.NoChains()
    requires AllStored(before, entries, loading)
    ensures AllStored(after, entries, loading)
  {
    hide Disk.Valid, Disk.NoChains, Stored, Grown;
    forall n | n in entries ensures Stored(after, n, entries[n]) {
      StoredGrown(before, after, n, entries[n]);
    }
    forall i | 0 <= i < |loading| ensures Stored(after, loading[i].LayerName(), loading[i]) {
      StoredGrown(before, after, loading[i].LayerName(), loading[i]);
    }
  }

  lemma FaithfulGrounded(disk: Disk, n: Name, l: InternalLayer)
    requires Faithful(disk, n, l)
    ensures Grounded(l) && l.LayerName() == n && SameContents(disk, n, l)
  {
    hide Grounded, InternalLayer.TripleSet, TablesOf;
  }

  lemma GroundedOption(parent: Option<InternalLayer>)
    requires parent.Some? ==> Grounded(parent.value)
    ensures GroundedParent(parent)
  {
  }

  /** Passes the requested changes to a fresh builder. */
  method FillBuilder(builder: SimpleLayerBuilder, adds: seq<StringTriple>, removes: seq<StringTriple>)
    requires builder.Valid() && builder.Additions() == {} && builder.Removals() == {}
    modifies builder
    ensures builder.Valid() && builder.Additions() == Elements(adds) && builder.Removals() == Elements(removes)
  {
    hide SimpleLayerBuilder.Valid, SimpleLayerBuilder.Additions, SimpleLayerBuilder.Removals;
    for i := 0 to |adds|
      invariant builder.Valid() && builder.Removals() == {} && builder.Additions() == Elements(adds[..i])
    {
      builder.AddValueTriple(adds[i]);
      ElementsNext(adds, i);
    }
    for i := 0 to |removes|
      invariant builder.Valid() && builder.Additions() == Elements(adds) && builder.Removals() == Elements(removes[..i])
    {
      builder.RemoveValueTriple(removes[i]);
      ElementsNext(removes, i);
    }
    assert removes[..|removes|] == removes;
  }

  lemma ElementsNext<T>(s: seq<T>, i: nat)
    requires i < |s|
    ensures Elements(s[..i + 1]) == Elements(s[..i]) + {s[i]} && s[..|s|] == s
  {
  }

  lemma ElementsWhole<T>(s: seq<T>)
    ensures s[..|s|] == s
  {
  }

  lemma CommittedBy(layer: InternalLayer, name: Name, parent: Option<InternalLayer>, adds: set<StringTriple>,
      removes: set<StringTriple>)
    requires CommitOf(layer, name, parent, adds, removes)
    ensures GroundedParent(parent) && Grounded(layer) && !layer.Rollup? && layer.LayerName() == name &&
      layer.ImmediateParent() == parent
    ensures Meaning(layer) == Committed(BaseMeaning(parent), adds, removes)
  {
    hide Grounded, GroundedParent, BaseMeaning, Meaning, UsesEntry, UsesPredicate, Committed;
  }

  lemma SameMeaningOnDisk(disk: Disk, n: Name, l: InternalLayer)
    requires SameContents(disk, n, l)
    ensures disk.Sound() && n in disk.layers && Grounded(disk.Raw(n)) && Grounded(l) &&
      Meaning(disk.Raw(n)) == Meaning(l)
  {
    hide InternalLayer.TripleSet, Disk.Sound, InternalLayer.Valid, Table, PredicateTable, DictsValid, KnowsAll, Named;
    SoundAt(disk, n);
  }

  /** What the committed layer means once it is on disk. */
  lemma CommittedOnDisk(before: Disk, after: Disk, layer: InternalLayer, parent: Option<InternalLayer>,
      adds: set<StringTriple>, removes: set<StringTriple>)
    requires before.Sound() && after.Sound() && Grown(before, after) && GroundedParent(parent) && Grounded(layer)
    requires !layer.Rollup? && layer.ImmediateParent() == parent && layer.LayerName() in after.layers &&
      after.layers[layer.LayerName()] == FilesOf(layer, before.clock)
    requires SameContents(after, layer.LayerName(), layer)
    requires parent.Some? ==> SameContents(before, parent.value.LayerName(), parent.value)
    requires Meaning(layer) == Committed(BaseMeaning(parent), adds, removes)
    ensures Grounded(after.Raw(layer.LayerName())) && after.ParentOf(layer.LayerName()) == if parent.None? then None
      else Some(parent.value.LayerName())
    ensures parent.None? ==> Meaning(after.Raw(layer.LayerName())) == Committed({}, adds, removes)
    ensures parent.Some? ==> var p := parent.value.LayerName();
      p in after.layers && Grounded(after.Raw(p)) && Meaning(after.Raw(layer.LayerName())) ==
      Committed(Meaning(after.Raw(p)), adds, removes)
  {
    hide Grounded, Disk.Sound, SameContents, Meaning, Committed;
    SameMeaningOnDisk(after, layer.LayerName(), layer);
    if parent.Some? {
      var p := parent.value.LayerName();
      SameMeaningOnDisk(before, p, parent.value);
      SoundIsRooted(before);
      SoundIsRooted(after);
      RawGrown(before, after, p);
      SoundAt(after, p);
    }
  }

  /* ---- squashing up to an ancestor ---- */

  /** The dictionaries on disk fit on top of the loaded ancestor. */
  lemma StackOnDisk(disk: Disk, name: Name, upto: Name, uptoLayer: InternalLayer, ds: seq<Dictionary>)
    requires disk.Sound() && disk.Rooted() && name in disk.layers && upto in disk.layers &&
      OnTopOf(disk.Raw(name), disk.Raw(upto), ds)
    requires Grounded(uptoLayer) && DictsValid(uptoLayer) && DictsValid(disk.Raw(upto)) &&
      TablesOf(uptoLayer) == TablesOf(disk.Raw(upto))
    ensures Grounded(disk.Raw(name)) && StackAbove(uptoLayer, ds, disk.Raw(name).TripleSet())
    ensures DecodeAll(Extended(TablesOf(uptoLayer), ds), disk.Raw(name).TripleSet()) == Meaning(disk.Raw(name))
  {
    hide Disk.Sound, Disk.Rooted, Disk.Raw, InternalLayer.Valid, InternalLayer.TripleSet, Table, PredicateTable,
      DictsValid, Extended, AllValid, KnowsAll;
    SoundAt(disk, name);
    GroundedParts(disk.Raw(name));
  }

  /** `r` is a child of `upto` that says what `n` says, and knows the ids of `upto` as `n` does. */
  ghost predicate SquashedOnto(disk: Disk, n: Name, upto: Name, r: Name) {
    && disk.Sound() && n in disk.layers && upto in disk.layers && r in disk.layers && disk.ParentOf(r) == Some(upto)
    && Grounded(disk.Raw(n)) && Grounded(disk.Raw(r)) && Meaning(disk.Raw(r)) == Meaning(disk.Raw(n))
    && DictsValid(disk.Raw(upto))
    && forall t :: TablesOf(disk.Raw(upto)).Knows(t) ==>
      (t in disk.Raw(r).TripleSet() <==> t in disk.Raw(n).TripleSet())
  }

  /** What the squashed layer means once it is on disk. */
  lemma SquashedOnDisk(before: Disk, after: Disk, name: Name, upto: Name, uptoLayer: InternalLayer,
      built: InternalLayer)
    requires before.Sound() && before.Rooted() && after.Sound() && after.Rooted() && Grown(before, after) &&
      name in before.layers && upto in before.layers
    requires Grounded(built) && built.Child? && built.parent.LayerName() == upto &&
      built.LayerName() in after.layers && after.layers[built.LayerName()] == FilesOf(built, before.clock)
    requires SameContents(after, built.LayerName(), built)
    requires Grounded(before.Raw(name)) && Meaning(built) == Meaning(before.Raw(name))
    requires DictsValid(uptoLayer) && DictsValid(before.Raw(upto)) && TablesOf(uptoLayer) == TablesOf(before.Raw(upto))
    requires forall t :: TablesOf(uptoLayer).Knows(t) ==>
      (t in built.TripleSet() <==> t in before.Raw(name).TripleSet())
    ensures SquashedOnto(after, name, upto, built.LayerName())
  {
    hide Disk.Sound, Disk.Rooted, Disk.Raw, SameContents, Grounded, InternalLayer.TripleSet, Meaning, TablesOf,
      DictsValid, Tables.Knows;
    RawGrown(before, after, name);
    RawGrown(before, after, upto);
    SameMeaningOnDisk(after, built.LayerName(), built);
    SameTriplesOnDisk(after, built.LayerName(), built);
  }

  lemma SameTriplesOnDisk(disk: Disk, n: Name, l: InternalLayer)
    requires SameContents(disk, n, l) && disk.Rooted() && n in disk.layers
    ensures l.TripleSet() == disk.Raw(n).TripleSet()
  {
    hide InternalLayer.TripleSet, Disk.Sound, Grounded, TablesOf;
  }

  /* ---- whole runs ---- */

  datatype Step =
    | Committing(name: Name, parent: Option<Name>, adds: seq<StringTriple>, removes: seq<StringTriple>)
    | RollingUp(layer: Name, name: Name)
    | RollingUpTo(layer: Name, upto: Name, name: Name)
    | Squashing(layer: Name, name: Name)
    | SquashingUpTo(layer: Name, upto: Name, name: Name)
    | Loading(layer: Name)
    | LoadingOnly(layer: Name)
    | Caching(k: nat)
    | Invalidating(layer: Name)

  /** Two loads cannot be told apart by name, parent name or contents. */
  ghost predicate Agree(a: InternalLayer, b: InternalLayer) {
    && a.LayerName() == b.LayerName() && a.ParentName() == b.ParentName()
    && Grounded(a) && Grounded(b) && a.Valid() && b.Valid()
    && a.TripleSet() == b.TripleSet() && Meaning(a) == Meaning(b)
  }

  lemma FaithfulAgree(disk: Disk, n: Name, a: InternalLayer, b: InternalLayer)
    requires Faithful(disk, n, a) && Faithful(disk, n, b)
    ensures Agree(a, b)
  {
    hide InternalLayer.TripleSet, Disk.Sound, Grounded, TablesOf, Meaning, InternalLayer.Valid;
    FaithfulGrounded(disk, n, a);
    FaithfulGrounded(disk, n, b);
    RepresentsAgree(disk, n, a, b);
  }

  /** Whether rolling up to `upto` would not misread predicates. */
  method ReadsRight(disk: Disk, layer: InternalLayer, upto: Name) returns (right: bool)
    requires disk.Sound() && disk.Rooted() && Faithful(disk, layer.LayerName(), layer) &&
      layer.LayerName() in disk.layers
    requires DictsValid(layer)
    ensures right <==> !Misreads(disk, layer, upto)
  {
    hide Disk.Sound, Faithful, DictsValid, ReadRight, Blocked, Bound, Chain, OnTopOf, Disk.Rooted;
    var name := layer.LayerName();
    if name == upto || layer.ParentName() == Some(upto) || RolledUp(disk, name, Some(upto)) ||
      RolledUp(disk, name, None) {
      return true;
    }
    var names := StackNamesUpto(disk, name, upto);
    if names.None? || Blocked(names.value, upto, layer) {
      return true;
    }
    BoundIsSafe(disk, upto, layer, names.value);
    var dicts := MemoryDicts(layer, Bound(names.value, upto, layer));
    right := ReadRight(dicts);
  }

  /** Takes one step; loads are answered. A step that names what is not there, reuses a name or
      rolls up what is itself a rollup is not taken. */
  method Take(store: LayerStore, step: Step) returns (answer: Option<InternalLayer>)
    requires store.Valid()
    modifies store, store.cache
    ensures store.Valid() && Grown(old(store.disk), store.disk)
    ensures Answered(store.disk, step, answer)
    ensures
      && step.Committing? && step.name !in old(store.disk).layers
      && (step.parent.Some? ==> step.parent.value in old(store.disk).layers)
      ==> step.name in store.disk.layers && store.disk.ParentOf(step.name) == step.parent
  {
    hide Faithful, LayerStore.Valid, Grown, Grounded, Meaning, Committed, Disk.Sound, Disk.Rooted, RollsUpto, RolledUp;
    answer := None;
    GrownSelf(store.disk);
    match step {
      case Committing(name, parent, adds, removes) =>
        if name !in store.disk.layers {
          var done := store.Commit(name, parent, adds, removes);
        }
      case RollingUp(layer, name) =>
        var found := store.GetLayer(layer);
        if found.Some? && name !in store.disk.layers && NoTarget(store.disk, layer) {
          FaithfulNamed(store.disk, layer, found.value);
          store.Rollup(found.value, name);
          store.Closed();
        }
      case RollingUpTo(layer, upto, name) =>
        var found := store.GetLayer(layer);
        if found.Some? && name !in store.disk.layers && NoTarget(store.disk, layer) {
          FaithfulNamed(store.disk, layer, found.value);
          store.Opened();
          var right := ReadsRight(store.disk, found.value, upto);
          if right {
            store.RollupUpto(found.value, upto, name);
            store.Closed();
          }
        }
      case Squashing(layer, name) =>
        var found := store.GetLayer(layer);
        if found.Some? && name !in store.disk.layers {
          FaithfulNamed(store.disk, layer, found.value);
          store.SquashLayer(found.value, name);
        }
      case SquashingUpTo(layer, upto, name) =>
        store.Opened();
        if layer in store.disk.layers && name !in store.disk.layers {
          var done := store.SquashLayerUpto(layer, upto, name);
        }
      case Loading(layer) =>
        answer := store.GetLayer(layer);
      case LoadingOnly(layer) =>
        answer := store.BeginLoad(layer);
      case Caching(k) =>
        if k < |store.loading| {
          store.CacheLoaded(k);
        }
      case Invalidating(layer) =>
        store.Invalidate(layer);
    }
  }

  predicate Asks(step: Step) {
    step.Loading? || step.LoadingOnly?
  }

  /** A load is answered exactly when the layer exists, by something that is that layer. */
  ghost predicate Answered(disk: Disk, step: Step, answer: Option<InternalLayer>) {
    && (answer.Some? <==> Asks(step) && step.layer in disk.layers)
    && (answer.Some? ==> Faithful(disk, step.layer, answer.value))
  }

  /** Both steps load the same layer. */
  predicate SameQuestion(a: Step, b: Step) {
    Asks(a) && Asks(b) && a.layer == b.layer
  }

  /** Every answer so far is still right, and what was loaded once is loaded ever after. */
  ghost predicate StillRight(disk: Disk, steps: seq<Step>, answers: seq<Option<InternalLayer>>) {
    && |answers| <= |steps|
    && (forall i :: 0 <= i < |answers| && answers[i].Some? ==>
      Asks(steps[i]) && Faithful(disk, steps[i].layer, answers[i].value))
    && (forall i, j :: 0 <= i < j < |answers| && answers[i].Some? && SameQuestion(steps[i], steps[j]) ==>
      answers[j].Some?)
  }

  lemma RightAfter(before: Disk, after: Disk, steps: seq<Step>, answers: seq<Option<InternalLayer>>,
      answer: Option<InternalLayer>)
    requires after.Sound() && Grown(before, after) && StillRight(before, steps, answers)
    requires |answers| < |steps| && Answered(after, steps[|answers|], answer)
    ensures StillRight(after, steps, answers + [answer])
  {
    hide Disk.Sound, Faithful, Grown;
    var more := answers + [answer];
    forall i | 0 <= i < |answers| && answers[i].Some? ensures Asks(steps[i]) && steps[i].layer in after.layers &&
      Faithful(after, steps[i].layer, answers[i].value) && more[i] == answers[i] {
      FaithfulGrown(before, after, steps[i].layer, answers[i].value);
      FaithfulNamed(after, steps[i].layer, answers[i].value);
    }
  }

  /** Over every run: whatever is committed, rolled up, squashed, cached or dropped from the cache
      in between, what can be loaded stays loadable, and two loads of the same name agree. */
  method Run(store: LayerStore, steps: seq<Step>) returns (answers: seq<Option<InternalLayer>>)
    requires store.Valid()
    modifies store, store.cache
    ensures store.Valid() && Grown(old(store.disk), store.disk) && |answers| == |steps|
    ensures forall i :: 0 <= i < |steps| && Asks(steps[i]) && steps[i].layer in old(store.disk).layers ==>
      answers[i].Some?
    ensures forall i :: 0 <= i < |steps| && answers[i].Some? ==>
      Asks(steps[i]) && Faithful(store.disk, steps[i].layer, answers[i].value)
    ensures forall i, j :: 0 <= i < j < |steps| && answers[i].Some? && steps[i] == steps[j] ==>
      answers[j].Some? && Agree(answers[i].value, answers[j].value)
  {
    hide Faithful, LayerStore.Valid, Grown, Grounded, Disk.Sound, Disk.Rooted, StillRight, Agree;
    answers := [];
    GrownSelf(store.disk);
    NothingAsked(store.disk, steps);
    for k := 0 to |steps|
      invariant store.Valid() && Grown(old(store.disk), store.disk) && |answers| == k &&
        StillRight(store.disk, steps, answers)
      invariant forall i :: 0 <= i < k && Asks(steps[i]) && steps[i].layer in old(store.disk).layers ==>
        answers[i].Some?
    {
      ghost var before := store.disk;
      var answer := Take(store, steps[k]);
      store.Opened();
      GrownTwice(old(store.disk), before, store.disk);
      StillThere(old(store.disk), store.disk);
      RightAfter(before, store.disk, steps, answers, answer);
      answers := answers + [answer];
    }
    AllAgree(store.disk, steps, answers);
  }

  lemma NothingAsked(disk: Disk, steps: seq<Step>)
    ensures StillRight(disk, steps, [])
  {
  }

  lemma StillThere(before: Disk, after: Disk)
    requires Grown(before, after)
    ensures forall n :: n in before.layers ==> n in after.layers
  {
  }

  lemma AllAgree(disk: Disk, steps: seq<Step>, answers: seq<Option<InternalLayer>>)
    requires StillRight(disk, steps, answers)
    ensures forall i :: 0 <= i < |answers| && answers[i].Some? ==>
      Asks(steps[i]) && Faithful(disk, steps[i].layer, answers[i].value)
    ensures forall i, j :: 0 <= i < j < |answers| && answers[i].Some? && steps[i] == steps[j] ==>
      answers[j].Some? && Agree(answers[i].value, answers[j].value)
  {
    hide Faithful, Agree;
    forall i, j | 0 <= i < j < |answers| && answers[i].Some? &&
      SameQuestion(steps[i], steps[j]) ensures answers[j].Some? &&
      Agree(answers[i].value, answers[j].value) {
      FaithfulAgree(disk, steps[i].layer, answers[i].value, answers[j].value);
    }
  }
}
