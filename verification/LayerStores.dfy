/** Loading layers by name: rollups are substituted for the layers they were made for, and
    loaded layers are cached. */
module LayerStores {
  import opened Triples
  import opened Dictionaries
  import opened InternalLayers
  import opened IdTranslation
  import opened StringTriples
  import opened Stores

  /* ---- what loading gives when nothing is cached ---- */

  ghost function ParentAge(disk: Disk, n: Name): nat
    requires disk.Rooted() && n in disk.layers
  {
    assert disk.RootedAt(n);
    match disk.ParentOf(n) case None => 0 case Some(p) => disk.layers[p].created + 1
  }

  lemma Ages(disk: Disk, n: Name)
    requires disk.Valid() && n in disk.layers
    ensures disk.Rooted() && disk.RootedAt(n)
    ensures disk.ParentOf(n).Some? ==> ParentAge(disk, disk.ParentOf(n).value) < ParentAge(disk, n)
    ensures n in disk.rollups ==>
      disk.rollups[n] in disk.layers && ParentAge(disk, disk.rollups[n]) <= ParentAge(disk, n)
    ensures n in disk.rollups ==> disk.layers[n].created < disk.layers[disk.rollups[n]].created < disk.clock
    ensures n in disk.rollups ==> disk.StandsFor(n, disk.rollups[n])
  {
    hide Grounded;
    assert disk.RootedAt(n);
    if disk.ParentOf(n).Some? {
      assert disk.RootedAt(disk.ParentOf(n).value);
    }
    if n in disk.rollups {
      assert disk.StandsFor(n, disk.rollups[n]);
      assert disk.RootedAt(disk.rollups[n]);
    }
  }

  /** The layer under its own files. */
  ghost function Plain(disk: Disk, n: Name): InternalLayer
    requires disk.Valid() && n in disk.layers
    decreases ParentAge(disk, n), disk.clock - disk.layers[n].created, 0
  {
    Ages(disk, n);
    match disk.layers[n]
    case BaseFiles(_, dict, triples) => Base(n, dict, triples)
    case ChildFiles(_, parent, dict, pos, neg) => Child(n, Loaded(disk, parent), dict, pos, neg)
  }

  /** What loading `n` gives without a cache. A rollup is loaded under the original name, unless
      it has a rollup itself: then that one is loaded in its own right. */
  ghost function Loaded(disk: Disk, n: Name): InternalLayer
    requires disk.Valid() && n in disk.layers
    decreases ParentAge(disk, n), disk.clock - disk.layers[n].created, 1
  {
    Ages(disk, n);
    if n !in disk.rollups then Plain(disk, n)
    else if disk.rollups[n] in disk.rollups then Loaded(disk, disk.rollups[n])
    else Rollup(Plain(disk, disk.rollups[n]), n, disk.ParentOf(n))
  }

  lemma PlainName(disk: Disk, n: Name)
    requires disk.Valid() && n in disk.layers
    ensures Plain(disk, n).LayerName() == n
  {
  }

  /** The name of a loaded layer is never that of an older layer. */
  lemma {:induction false} LoadedName(disk: Disk, n: Name)
    requires disk.Valid() && n in disk.layers
    ensures Loaded(disk, n).LayerName() in disk.layers
    ensures disk.layers[n].created <= disk.layers[Loaded(disk, n).LayerName()].created
    decreases disk.clock - disk.layers[n].created
  {
    hide Disk.Valid, Disk.Sound, Disk.Rooted;
    Ages(disk, n);
    if n in disk.rollups && disk.rollups[n] in disk.rollups {
      LoadedName(disk, disk.rollups[n]);
    } else if n !in disk.rollups {
      PlainName(disk, n);
    }
  }

  /** Without a cache the loader returns the layer it was asked for exactly when the layer has no
      rollup, or one that has no rollup itself. */
  lemma LoadedNameIff(disk: Disk, n: Name)
    requires disk.Valid() && n in disk.layers
    ensures Loaded(disk, n).LayerName() == n <==> n !in disk.rollups || disk.rollups[n] !in disk.rollups
  {
    hide Disk.Valid, Disk.Sound, Disk.Rooted;
    Ages(disk, n);
    if n in disk.rollups && disk.rollups[n] in disk.rollups {
      LoadedName(disk, disk.rollups[n]);
    } else if n !in disk.rollups {
      PlainName(disk, n);
    }
  }

  /* ---- the cache ---- */

  /** What the cache may hold under a name. */
  ghost predicate Stored(disk: Disk, n: Name, l: InternalLayer) {
    && SameContents(disk, n, l) && l.LayerName() == n
    && (l.ImmediateParent().Some? ==> disk.ParentOf(n).Some?)
    && (disk.NoChains() ==> Faithful(disk, n, l))
  }

  lemma StoredName(disk: Disk, n: Name, l: InternalLayer)
    requires Stored(disk, n, l)
    ensures l.LayerName() == n
  {
    hide SameContents, Disk.NoChains, Faithful;
  }

  /** A map of weak references, or no cache at all. */
  class LayerCache {
    const active: bool
    var entries: map<Name, InternalLayer>

    ghost predicate Valid(disk: Disk)
      reads this
    {
      && (forall n :: n in entries ==> Stored(disk, n, entries[n]))
      && (!active ==> entries == map[])
    }

    predicate Holds(l: InternalLayer)
      reads this
    {
      l.LayerName() in entries && entries[l.LayerName()] == l
    }

    constructor (active: bool)
      ensures entries == map[] && this.active == active
    {
      this.active := active;
      entries := map[];
    }

    /** A weak reference may be gone, in which case it is dropped. */
    method GetLayer(name: Name, ghost disk: Disk) returns (r: Option<InternalLayer>)
      requires Valid(disk)
      modifies this
      ensures Valid(disk) && (r.Some? ==> Stored(disk, name, r.value))
      ensures !active ==> r.None?
      ensures entries == old(entries) || entries == old(entries) - {name}
      ensures r.Some? ==> entries == old(entries) && name in entries && r.value == entries[name] && Holds(r.value)
    {
      hide Stored;
      if name !in entries {
        return None;
      }
      if * {
        entries := entries - {name};
        return None;
      }
      StoredName(disk, name, entries[name]);
      return Some(entries[name]);
    }

    method CacheLayer(layer: InternalLayer, ghost disk: Disk)
      requires Valid(disk) && Stored(disk, layer.LayerName(), layer)
      modifies this
      ensures Valid(disk) && entries == if active then old(entries)[layer.LayerName() := layer] else old(entries)
    {
      hide Stored;
      if active {
        entries := entries[layer.LayerName() := layer];
      }
    }

    method Invalidate(name: Name)
      modifies this
      ensures entries == old(entries) - {name}
    {
      entries := entries - {name};
    }
  }

  /* ---- the loader ---- */

  /** A layer to load, from its own files or from those of its rollup, keeping the name of its
      original parent. */
  datatype Pending = Pending(name: Name, rollup: Option<(Name, Option<Name>)>) {
    function Current(): Name {
      match rollup case None => name case Some(r) => r.0
    }
  }

  /** The two names have the same contents; without chains of rollups they are the same. */
  ghost predicate Alike(disk: Disk, a: Name, b: Name) {
    && disk.Sound() && a in disk.layers && b in disk.layers
    && TablesOf(disk.Raw(a)) == TablesOf(disk.Raw(b)) && disk.Raw(a).TripleSet() == disk.Raw(b).TripleSet()
    && (disk.NoChains() ==> a == b)
  }

  ghost predicate Sensible(disk: Disk, item: Pending) {
    && item.name in disk.layers
    && match item.rollup
       case None => true
       case Some(r) => item.name in disk.rollups && disk.rollups[item.name] == r.0 && r.1 == disk.ParentOf(item.name)
  }

  /** `item`, or the layer above it, asks for a layer like `n`. */
  ghost predicate Wants(disk: Disk, name: Name, items: seq<Pending>, n: Name) {
    if items == [] then Alike(disk, name, n)
    else
      var above := items[|items| - 1];
      && Sensible(disk, above) && above.Current() in disk.layers
      && disk.ParentOf(above.Current()).Some? && Alike(disk, disk.ParentOf(above.Current()).value, n)
      && Wants(disk, name, items[..|items| - 1], above.name)
  }

  /** Building one layer over the layer its files name as parent. */
  ghost function Build(disk: Disk, item: Pending, parent: InternalLayer): InternalLayer
    requires item.Current() in disk.layers && disk.layers[item.Current()].ChildFiles?
  {
    var f := disk.layers[item.Current()];
    var c := Child(item.Current(), parent, f.dict, f.pos, f.neg);
    match item.rollup case None => c case Some(r) => Rollup(c, item.name, r.1)
  }

  ghost predicate Buildable(disk: Disk, items: seq<Pending>) {
    forall i :: 0 <= i < |items| ==> items[i].Current() in disk.layers && disk.layers[items[i].Current()].ChildFiles?
  }

  ghost function Assemble(disk: Disk, items: seq<Pending>, lowest: InternalLayer): InternalLayer
    requires Buildable(disk, items)
  {
    if items == [] then lowest
    else Assemble(disk, items[..|items| - 1], Build(disk, items[|items| - 1], lowest))
  }

  /** What loading one pending item gives without a cache. */
  ghost function LoadedItem(disk: Disk, item: Pending): InternalLayer
    requires disk.Valid() && Sensible(disk, item) && item.Current() in disk.layers
  {
    match item.rollup
    case None => Loaded(disk, item.name)
    case Some(r) => if r.0 in disk.rollups then Loaded(disk, r.0) else Rollup(Plain(disk, r.0), item.name, r.1)
  }

  /** A loaded layer that has the contents asked for, and is what its own name says. */
  ghost predicate Delivers(disk: Disk, n: Name, l: InternalLayer) {
    SameContents(disk, n, l) && Stored(disk, l.LayerName(), l) && (disk.NoChains() ==> l.LayerName() == n)
  }

  lemma AlikeSelf(disk: Disk, n: Name)
    requires disk.Sound() && n in disk.layers
    ensures Alike(disk, n, n)
  {
  }

  lemma AlikeRollup(disk: Disk, n: Name)
    requires disk.Valid() && n in disk.rollups && n in disk.layers && disk.rollups[n] in disk.layers &&
      disk.rollups[n] in disk.rollups
    ensures Alike(disk, n, disk.rollups[n])
  {
    hide Grounded, InternalLayer.TripleSet, TablesOf, Disk.Sound;
    assert disk.StandsFor(n, disk.rollups[n]);
  }

  lemma WantsAlike(disk: Disk, name: Name, items: seq<Pending>, a: Name, b: Name)
    requires Wants(disk, name, items, a) && Alike(disk, a, b)
    ensures Wants(disk, name, items, b)
  {
    hide Disk.Sound, InternalLayer.TripleSet, TablesOf, Disk.ParentOf;
  }

  lemma WantsMore(disk: Disk, name: Name, items: seq<Pending>, item: Pending)
    requires disk.Valid() && Sensible(disk, item) && item.Current() in disk.layers &&
      Wants(disk, name, items, item.name)
    requires disk.ParentOf(item.Current()).Some?
    ensures disk.ParentOf(item.Current()).value in disk.layers
    ensures Wants(disk, name, items + [item], disk.ParentOf(item.Current()).value)
  {
    hide Grounded, InternalLayer.TripleSet, TablesOf, Disk.Sound;
    Ages(disk, item.Current());
    AlikeSelf(disk, disk.ParentOf(item.Current()).value);
    assert (items + [item])[..|items|] == items;
  }

  /** A pending item is loaded from the files of its current layer, over that layer's parent. */
  lemma LoadedItemStep(disk: Disk, item: Pending)
    requires disk.Valid() && Sensible(disk, item) && item.Current() in disk.layers
    ensures item.Current() in disk.rollups && disk.rollups[item.Current()] in disk.layers ==>
      LoadedItem(disk, item) == LoadedItem(disk, Pending(item.Current(),
      Some((disk.rollups[item.Current()], disk.ParentOf(item.Current())))))
    ensures
      && item.Current() !in disk.rollups && disk.ParentOf(item.Current()).Some?
      && disk.ParentOf(item.Current()).value in disk.layers
      ==> LoadedItem(disk, item) == Build(disk, item, Loaded(disk, disk.ParentOf(item.Current()).value))
    ensures item.Current() !in disk.rollups && disk.ParentOf(item.Current()).None? ==>
      LoadedItem(disk, item) == BuildBase(disk, item)
  {
    hide Disk.Valid, Disk.Sound, Disk.Rooted, Plain;
    Ages(disk, item.Current());
    Ages(disk, item.name);
    PlainIs(disk, item.Current());
  }

  lemma PlainIs(disk: Disk, n: Name)
    requires disk.Valid() && n in disk.layers
    ensures disk.ParentOf(n).None? ==> Plain(disk, n) == BuildBase(disk, Pending(n, None))
    ensures disk.ParentOf(n).Some? && disk.ParentOf(n).value in disk.layers ==>
      Plain(disk, n) == Build(disk, Pending(n, None), Loaded(disk, disk.ParentOf(n).value))
  {
    hide Disk.Valid, Loaded;
  }

  ghost function BuildBase(disk: Disk, item: Pending): InternalLayer
    requires item.Current() in disk.layers && disk.layers[item.Current()].BaseFiles?
  {
    var f := disk.layers[item.Current()];
    var b := Base(item.Current(), f.dict, f.triples);
    match item.rollup case None => b case Some(r) => Rollup(b, item.name, r.1)
  }

  lemma {:induction false} AssembleSnoc(disk: Disk, items: seq<Pending>, item: Pending, lowest: InternalLayer)
    requires Buildable(disk, items) && item.Current() in disk.layers && disk.layers[item.Current()].ChildFiles?
    ensures Buildable(disk, items + [item]) && Assemble(disk, items + [item], lowest) ==
      Assemble(disk, items, Build(disk, item, lowest))
  {
    assert (items + [item])[..|items|] == items;
    assert forall i :: 0 <= i < |items| ==> (items + [item])[i] == items[i];
    assert (items + [item])[|items|] == item;
  }

  /** The state of the search: the items above the last are waiting for it. */
  ghost predicate Searching(disk: Disk, name: Name, items: seq<Pending>, last: Pending) {
    && disk.Valid() && Sensible(disk, last) && last.Current() in disk.layers
    && Wants(disk, name, items, last.name) && Buildable(disk, items)
  }

  /** What the search has found would be loaded without a cache. */
  ghost predicate OnTrack(disk: Disk, name: Name, items: seq<Pending>, last: Pending) {
    Searching(disk, name, items, last) && name in disk.layers &&
        Loaded(disk, name) == Assemble(disk, items, LoadedItem(disk, last))
  }

  lemma StartSearch(disk: Disk, name: Name)
    requires disk.Valid() && name in disk.layers
    ensures OnTrack(disk, name, [], Pending(name, None))
  {
    hide Grounded, InternalLayer.TripleSet, TablesOf, Disk.Sound;
    AlikeSelf(disk, name);
  }

  /** Turning to the rollup of the current layer. */
  lemma TakeRollup(disk: Disk, name: Name, items: seq<Pending>, last: Pending)
    requires Searching(disk, name, items, last) && last.Current() in disk.rollups
    ensures disk.rollups[last.Current()] != last.Current() && disk.rollups[last.Current()] in disk.layers
    ensures var next := Pending(last.Current(), Some((disk.rollups[last.Current()], disk.ParentOf(last.Current()))));
      Searching(disk, name, items, next) && (OnTrack(disk, name, items, last) ==> OnTrack(disk, name, items, next))
    ensures ParentAge(disk, disk.rollups[last.Current()]) <= ParentAge(disk, last.Current())
    ensures disk.layers[last.Current()].created < disk.layers[disk.rollups[last.Current()]].created < disk.clock
  {
    hide Disk.Valid, Disk.Sound, Disk.Rooted, Loaded, Plain, Assemble, Wants, Buildable, LoadedItem;
    Ages(disk, last.Current());
    Ages(disk, last.name);
    LoadedItemStep(disk, last);
    if last.rollup.Some? {
      AlikeRollup(disk, last.name);
      WantsAlike(disk, name, items, last.name, last.Current());
    }
  }

  /** Turning to the parent of the current layer. */
  lemma TakeParent(disk: Disk, name: Name, items: seq<Pending>, last: Pending)
    requires Searching(disk, name, items, last) && last.Current() !in disk.rollups &&
      disk.ParentOf(last.Current()).Some?
    ensures disk.ParentOf(last.Current()).value in disk.layers
    ensures var next := Pending(disk.ParentOf(last.Current()).value, None);
      Searching(disk, name, items + [last], next) && (OnTrack(disk, name, items, last) ==>
          OnTrack(disk, name, items + [last], next))
    ensures ParentAge(disk, disk.ParentOf(last.Current()).value) < ParentAge(disk, last.Current())
  {
    hide Disk.Valid, Disk.Sound, Disk.Rooted, Loaded, Plain, Assemble, Wants, LoadedItem;
    Ages(disk, last.Current());
    LoadedItemStep(disk, last);
    WantsMore(disk, name, items, last);
    assert Buildable(disk, items + [last]);
    AssembleSnoc(disk, items, last, Loaded(disk, disk.ParentOf(last.Current()).value));
    ParentItem(disk, disk.ParentOf(last.Current()).value);
  }

  lemma ParentItem(disk: Disk, n: Name)
    requires disk.Valid() && n in disk.layers
    ensures Sensible(disk, Pending(n, None)) && LoadedItem(disk, Pending(n, None)) == Loaded(disk, n)
  {
    hide Disk.Valid;
  }

  /** A cached layer stands in for everything below it. */
  lemma FoundInCache(disk: Disk, last: Pending, layer: InternalLayer)
    requires disk.Valid() && Sensible(disk, last) && last.Current() in disk.layers &&
      Stored(disk, last.Current(), layer)
    ensures last.rollup.None? ==> Delivers(disk, last.name, layer)
    ensures last.rollup.Some? ==> Delivers(disk, last.name, Rollup(layer, last.name, last.rollup.value.1))
    ensures last.rollup.Some? && layer.ImmediateParent().Some? ==> last.rollup.value.1.Some?
  {
    hide Grounded, InternalLayer.TripleSet, TablesOf, Disk.Sound;
    if last.rollup.Some? {
      Ages(disk, last.name);
      RollupRepresents(disk, last.name, last.Current(), layer);
    }
  }

  /** Walks down from the layer asked for to a cached layer, or to the bottom. */
  method FindAncestor(disk: Disk, name: Name, cache: LayerCache)
    returns (pending: seq<Pending>, ancestor: Option<InternalLayer>, ghost wanted: Name)
    requires disk.Valid() && name in disk.layers && cache.Valid(disk)
    modifies cache
    ensures cache.Valid(disk)
    ensures ancestor.Some? && !ancestor.value.Rollup? ==> cache.Holds(ancestor.value)
    ensures ancestor.Some? ==>
      Wants(disk, name, pending, wanted) && Buildable(disk, pending) && Delivers(disk, wanted, ancestor.value) &&
      cache.active
    ensures ancestor.None? ==> pending != []
    ensures ancestor.None? ==> var items, last := pending[..|pending| - 1], pending[|pending| - 1];
      OnTrack(disk, name, items, last) && last.Current() in disk.layers && last.Current() !in disk.rollups &&
      disk.ParentOf(last.Current()).None?
  {
    hide Disk.Valid, Disk.Sound, Disk.Rooted, Wants, Buildable, Sensible, Stored, Delivers, OnTrack, Searching,
      ParentAge;
    StartSearch(disk, name);
    var items, last := [], Pending(name, None);
    ancestor, wanted := None, name;
    TrackIsSearch(disk, name, items, last);
    while true
      invariant cache.Valid(disk) && OnTrack(disk, name, items, last)
      invariant disk.Valid() && disk.Rooted() && last.Current() in disk.layers &&
        disk.layers[last.Current()].created < disk.clock
      decreases ParentAge(disk, last.Current()), disk.clock - disk.layers[last.Current()].created
    {
      TrackIsSearch(disk, name, items, last);
      var current := last.Current();
      var found := cache.GetLayer(current, disk);
      match found {
        case Some(layer) =>
          FoundInCache(disk, last, layer);
          pending, wanted := items, last.name;
          match last.rollup {
            case Some(r) =>
              if layer.ImmediateParent().Some? {
                ancestor := Some(Rollup(layer, last.name, Some(r.1.value)));
              } else {
                ancestor := Some(Rollup(layer, last.name, r.1));
              }
            case None =>
              ancestor := Some(layer);
          }
          return;
        case None =>
          if current in disk.rollups {
            // the source panics on a layer that is its own rollup
            TakeRollup(disk, name, items, last);
            last := Pending(current, Some((disk.rollups[current], disk.ParentOf(current))));
          } else if disk.ParentOf(current).Some? {
            TakeParent(disk, name, items, last);
            items, last := items + [last], Pending(disk.ParentOf(current).value, None);
            TrackIsSearch(disk, name, items, last);
          } else {
            pending := items + [last];
            return;
          }
      }
    }
  }

  lemma TrackIsSearch(disk: Disk, name: Name, items: seq<Pending>, last: Pending)
    requires OnTrack(disk, name, items, last)
    ensures Searching(disk, name, items, last)
    ensures disk.Valid() && disk.Rooted() && last.Current() in disk.layers &&
      disk.layers[last.Current()].created < disk.clock
    ensures Sensible(disk, last) && Wants(disk, name, items, last.name) && Buildable(disk, items)
  {
    hide Loaded, Assemble, LoadedItem, Wants, Buildable, Sensible;
    Ages(disk, last.Current());
    assert disk.RootedAt(last.Current());
  }

  lemma DeliversAlike(disk: Disk, a: Name, b: Name, l: InternalLayer)
    requires Alike(disk, a, b) && Delivers(disk, b, l)
    ensures Delivers(disk, a, l)
  {
    hide Grounded, InternalLayer.TripleSet, TablesOf, Disk.Sound, Represents;
  }

  lemma WantsTop(disk: Disk, name: Name, items: seq<Pending>, n: Name)
    requires Wants(disk, name, items, n)
    ensures items == [] ==> Alike(disk, name, n)
    ensures items != [] ==> var above := items[|items| - 1];
      Sensible(disk, above) && above.Current() in disk.layers && disk.ParentOf(above.Current()).Some? &&
      Alike(disk, disk.ParentOf(above.Current()).value, n) && Wants(disk, name, items[..|items| - 1], above.name)
  {
    hide Alike;
  }

  lemma StoredParent(disk: Disk, n: Name, l: InternalLayer)
    requires Represents(disk, n, l) && disk.ParentOf(n) == l.ParentName()
    requires disk.NoChains() && l.ImmediateParent().Some? ==>
      Faithful(disk, l.ImmediateParent().value.LayerName(), l.ImmediateParent().value) &&
      AtOrBelowParent(disk, l.ImmediateParent().value.LayerName(), n)
    ensures Stored(disk, n, l) && Delivers(disk, n, l)
  {
    hide Grounded, InternalLayer.TripleSet, TablesOf, Disk.Sound;
  }

  /** Loads a base layer from its files, or from those of its rollup. */
  method LoadBase(disk: Disk, item: Pending, cache: LayerCache) returns (layer: InternalLayer)
    requires disk.Valid() && Sensible(disk, item) && item.Current() in disk.layers &&
      disk.ParentOf(item.Current()).None? && cache.Valid(disk)
    modifies cache
    ensures cache.Valid(disk) && layer == BuildBase(disk, item) && Delivers(disk, item.name, layer)
    ensures cache.active ==> cache.Holds(layer)
  {
    hide Disk.Valid, Disk.Sound, Disk.Rooted, Represents, Faithful, Stored, Delivers;
    Ages(disk, item.name);
    BaseItem(disk, item);
    match item.rollup {
      case None =>
        layer := Base(item.name, disk.layers[item.name].dict, disk.layers[item.name].triples);
      case Some(r) =>
        var baseLayer := Base(r.0, disk.layers[r.0].dict, disk.layers[r.0].triples);
        cache.CacheLayer(baseLayer, disk);
        layer := Rollup(baseLayer, item.name, r.1);
    }
    cache.CacheLayer(layer, disk);
  }

  lemma BaseItem(disk: Disk, item: Pending)
    requires disk.Valid() && Sensible(disk, item) && item.Current() in disk.layers &&
      disk.ParentOf(item.Current()).None?
    ensures var f := disk.layers[item.Current()]; Stored(disk, item.Current(), Base(item.Current(), f.dict, f.triples))
    ensures Stored(disk, item.name, BuildBase(disk, item)) && Delivers(disk, item.name, BuildBase(disk, item))
  {
    hide Grounded, InternalLayer.TripleSet, TablesOf, Disk.Sound, Stored, Delivers, Disk.NoChains;
    var f := disk.layers[item.Current()];
    var b := Base(item.Current(), f.dict, f.triples);
    ValidIsSound(disk);
    RawRepresents(disk, item.Current());
    assert disk.Raw(item.Current()) == b;
    StoredParent(disk, item.Current(), b);
    if item.rollup.Some? {
      Ages(disk, item.name);
      RollupRepresents(disk, item.name, item.Current(), b);
      StoredParent(disk, item.name, BuildBase(disk, item));
    }
  }

  lemma ValidIsSound(disk: Disk)
    requires disk.Valid()
    ensures disk.Sound() && disk.Rooted()
  {
    hide Grounded;
  }

  /** Loads a child layer over a loaded parent. */
  method LoadChild(disk: Disk, item: Pending, ancestor: InternalLayer, cache: LayerCache) returns (layer: InternalLayer)
    requires disk.Valid() && Sensible(disk, item) && item.Current() in disk.layers &&
      disk.ParentOf(item.Current()).Some? && cache.Valid(disk)
    requires Delivers(disk, disk.ParentOf(item.Current()).value, ancestor)
    modifies cache
    ensures cache.Valid(disk) && layer == Build(disk, item, ancestor) && Delivers(disk, item.name, layer)
    ensures cache.active ==> cache.Holds(layer)
  {
    hide Disk.Valid, Disk.Sound, Disk.Rooted, Represents, Faithful, Stored, Delivers;
    Ages(disk, item.name);
    ChildItem(disk, item, ancestor);
    match item.rollup {
      case None =>
        var f := disk.layers[item.name];
        layer := Child(item.name, ancestor, f.dict, f.pos, f.neg);
      case Some(r) =>
        // a child rollup always has an original parent
        OriginalParent(disk, item);
        var originalParent := r.1.value;
        var f := disk.layers[r.0];
        var childLayer := Child(r.0, ancestor, f.dict, f.pos, f.neg);
        cache.CacheLayer(childLayer, disk);
        layer := Rollup(childLayer, item.name, Some(originalParent));
    }
    cache.CacheLayer(layer, disk);
  }

  lemma OriginalParent(disk: Disk, item: Pending)
    requires disk.Valid() && Sensible(disk, item) && item.Current() in disk.layers &&
      disk.ParentOf(item.Current()).Some?
    ensures item.rollup.Some? ==> item.rollup.value.1.Some?
  {
    hide Grounded, InternalLayer.TripleSet, TablesOf, Disk.Sound;
    Ages(disk, item.name);
  }

  lemma ChildItem(disk: Disk, item: Pending, ancestor: InternalLayer)
    requires disk.Valid() && Sensible(disk, item) && item.Current() in disk.layers &&
      disk.ParentOf(item.Current()).Some?
    requires Delivers(disk, disk.ParentOf(item.Current()).value, ancestor)
    ensures var f := disk.layers[item.Current()];
      Stored(disk, item.Current(), Child(item.Current(), ancestor, f.dict, f.pos, f.neg))
    ensures Stored(disk, item.name, Build(disk, item, ancestor)) &&
      Delivers(disk, item.name, Build(disk, item, ancestor))
  {
    hide Grounded, InternalLayer.TripleSet, TablesOf, Disk.Sound, Disk.NoChains;
    ValidIsSound(disk);
    var f := disk.layers[item.Current()];
    var c := Child(item.Current(), ancestor, f.dict, f.pos, f.neg);
    ChildRepresents(disk, item.Current(), ancestor, c);
    if item.rollup.Some? {
      Ages(disk, item.name);
      RollupRepresents(disk, item.name, item.Current(), c);
      StoredParent(disk, item.name, Build(disk, item, ancestor));
    }
  }

  /** Loads a layer by name. Whatever rollups have been registered and whatever was cached
      before or after, the result has the contents of the layer as it was built; as long as no
      rollup has a rollup, it also has its name and its parent's name. */
  method GetLayerWithCache(disk: Disk, name: Name, cache: LayerCache) returns (r: Option<InternalLayer>)
    requires disk.Valid() && cache.Valid(disk)
    modifies cache
    ensures cache.Valid(disk)
    ensures r.Some? <==> name in disk.layers
    ensures r.Some? ==> Delivers(disk, name, r.value)
    ensures r.Some? && disk.NoChains() ==> Faithful(disk, name, r.value)
    ensures r.Some? && !cache.active ==> r.value == Loaded(disk, name)
    ensures r.Some? && cache.active && !r.value.Rollup? ==> cache.Holds(r.value)
  {
    hide Disk.Valid, Disk.Sound, Disk.Rooted, Represents, Faithful, Stored, Delivers, Wants, Buildable, Sensible,
      Searching, OnTrack, Disk.NoChains, Disk.ParentOf;
    var cached := cache.GetLayer(name, disk);
    if cached.Some? {
      StoredDelivers(disk, name, cached.value);
      return cached;
    }
    if name !in disk.layers {
      return None;
    }
    var pending, ancestor, wanted := FindAncestor(disk, name, cache);
    ghost var exact := ancestor.None?;
    var layer;
    if ancestor.None? {
      var item := pending[|pending| - 1];
      pending := pending[..|pending| - 1];
      Lowest(disk, name, pending, item);
      layer := LoadBase(disk, item, cache);
      wanted := item.name;
    } else {
      layer := ancestor.value;
    }
    while pending != []
      invariant cache.Valid(disk) && Wants(disk, name, pending, wanted) && Buildable(disk, pending) &&
        Delivers(disk, wanted, layer)
      invariant exact ==> Loaded(disk, name) == Assemble(disk, pending, layer)
      invariant cache.active && !layer.Rollup? ==> cache.Holds(layer)
    {
      var item := pending[|pending| - 1];
      WantsTop(disk, name, pending, wanted);
      DeliversAlike(disk, disk.ParentOf(item.Current()).value, wanted, layer);
      BuildableInit(disk, pending);
      layer := LoadChild(disk, item, layer, cache);
      wanted := item.name;
      pending := pending[..|pending| - 1];
    }
    WantsTop(disk, name, pending, wanted);
    DeliversAlike(disk, name, wanted, layer);
    DeliveredFaithful(disk, name, layer);
    return Some(layer);
  }

  lemma BuildableInit(disk: Disk, items: seq<Pending>)
    requires Buildable(disk, items) && items != []
    ensures Buildable(disk, items[..|items| - 1])
  {
  }

  lemma Lowest(disk: Disk, name: Name, items: seq<Pending>, last: Pending)
    requires OnTrack(disk, name, items, last) && last.Current() in disk.layers && last.Current() !in disk.rollups &&
      disk.ParentOf(last.Current()).None?
    ensures Sensible(disk, last) && Wants(disk, name, items, last.name) && Buildable(disk, items)
    ensures disk.Valid() && name in disk.layers && Loaded(disk, name) == Assemble(disk, items, BuildBase(disk, last))
  {
    hide Loaded, Assemble, LoadedItem, Wants, Buildable, Sensible, Disk.Valid;
    LoadedItemStep(disk, last);
  }

  lemma StoredDelivers(disk: Disk, n: Name, l: InternalLayer)
    requires Stored(disk, n, l)
    ensures n in disk.layers && Delivers(disk, n, l) && (disk.NoChains() ==> Faithful(disk, n, l))
  {
    hide Grounded, InternalLayer.TripleSet, TablesOf, Disk.Sound, Disk.NoChains, Represents;
  }

  lemma DeliveredFaithful(disk: Disk, n: Name, l: InternalLayer)
    requires Delivers(disk, n, l)
    ensures disk.NoChains() ==> Faithful(disk, n, l)
  {
    hide SameContents, Disk.NoChains, Represents, Faithful;
  }
}
