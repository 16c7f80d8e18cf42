/** Squashing a stack into a base layer, or into a child of one of its ancestors: fresh ids, the
    same strings, and a dictionary of exactly the strings in use. */
module Squashes {
  import opened Sorting
  import opened Triples
  import opened Dictionaries
  import opened InternalLayers
  import opened IdTranslation
  import opened StringTriples
  import opened Remapping
  import opened Numberings
  import opened Compaction
  import opened Commits
  import opened LayerFileBuilders
  import opened LayerBuilders
  import opened LayerQueries
  import opened NetIterators
  import opened NetOfStacks
  import Rollups

  /* ---- gathering what is in use from the dictionaries ---- */

  /** The entries of a run whose bit is set. */
  method KeepMarked<K>(run: seq<(K, nat)>, bits: seq<bool>, origin: nat, base: nat) returns (kept: seq<(K, nat)>)
    requires forall i :: 0 <= i < |run| ==> base < run[i].1 && 0 <= run[i].1 - origin < |bits|
    ensures kept == KeptRun(run, Marked(bits, origin, base))
  {
    hide Marked;
    kept := [];
    assert KeptRun(run[..0], Marked(bits, origin, base)) == [];
    for i := 0 to |run|
      invariant kept == KeptRun(run[..i], Marked(bits, origin, base))
    {
      assert run[..i + 1][..i] == run[..i];
      if bits[run[i].1 - origin] {
        kept := kept + [run[i]];
      }
    }
    assert run[..|run|] == run;
  }

  lemma RunInRange<K(!new)>(own: seq<K>, which: K -> bool, offset: nat, run: seq<(K, nat)>, base: nat, origin: nat,
      size: nat)
    requires RunOf(own, which, offset, run) && base <= offset && origin <= base + 1 && offset + |own| < origin + size
    ensures forall i :: 0 <= i < |run| ==> base < run[i].1 && 0 <= run[i].1 - origin < size
  {
  }

  /** Tables extended by further dictionaries. */
  ghost function Extended(below: Tables, ds: seq<Dictionary>): Tables
    requires AllValid(ds)
  {
    Tables(below.entries + Outers(ds), below.predicates + OuterPredicatesOf(ds))
  }

  lemma ExtendedNext(below: Tables, ds: seq<Dictionary>, i: nat)
    requires AllValid(ds) && i < |ds| && AllValid(ds[..i])
    ensures AllValid(ds[..i + 1]) && ds[i].Valid()
    ensures Extended(below, ds[..i + 1]) == Tables(Extended(below, ds[..i]).entries + ds[i].Outer(),
      Extended(below, ds[..i]).predicates + ds[i].OuterPredicates())
    ensures |ds[i].Outer()| == ds[i].Count() && |ds[i].OuterPredicates()| == |ds[i].predicates|
  {
    hide Dictionary.Valid, Dictionary.Outer, Dictionary.OuterPredicates;
    OutersNext(ds, i);
  }

  lemma {:induction false} ExtendedGrows(below: Tables, ds: seq<Dictionary>, i: nat)
    requires AllValid(ds) && i <= |ds|
    ensures AllValid(ds[..i])
    ensures |Extended(below, ds[..i]).entries| <= |Extended(below, ds).entries|
    ensures |Extended(below, ds[..i]).predicates| <= |Extended(below, ds).predicates|
    decreases |ds| - i
  {
    hide Dictionary.Valid, Dictionary.Outer, Dictionary.OuterPredicates, Extended;
    if i == |ds| {
      assert ds[..i] == ds;
    } else {
      ExtendedNext(below, ds, i);
      ExtendedGrows(below, ds, i + 1);
    }
  }

  /** What has been gathered from the first dictionaries. */
  ghost predicate GatheredUpto(table: Tables, keep: set<nat>, keepPredicates: set<nat>, nodes: seq<(Entry, nat)>,
      values: seq<(Entry, nat)>, predicates: seq<(Str, nat)>) {
    && Numbers(table.entries, IsNode, keep, nodes) && Numbers(table.entries, IsValue, keep, values)
    && Numbers(table.predicates, Every, keepPredicates, predicates)
  }

  /** Goes through the dictionaries, lowest first, keeping every entry whose bit is set. */
  method GatherUsed(ds: seq<Dictionary>, base: nat, origin: nat, bits: seq<bool>, predicateBase: nat,
      predicateOrigin: nat, predicateBits: seq<bool>, ghost below: Tables)
    returns (nodes: seq<(Entry, nat)>, values: seq<(Entry, nat)>, predicates: seq<(Str, nat)>)
    requires AllValid(ds) && base == |below.entries| && predicateBase == |below.predicates|
    requires origin <= base + 1 && |Extended(below, ds).entries| < origin + |bits|
    requires predicateOrigin <= predicateBase + 1 && |Extended(below,
      ds).predicates| < predicateOrigin + |predicateBits|
    ensures GatheredUpto(Extended(below, ds), Marked(bits, origin, base),
      Marked(predicateBits, predicateOrigin, predicateBase), nodes, values, predicates)
  {
    hide Dictionary.Valid, Dictionary.Outer, Dictionary.OuterPredicates, Numbers, Marked, RunOf, KeptRun, NodeRun,
      ValueRun, PredicateRun, AllValid, Extended;
    ghost var keep, keepPredicates := Marked(bits, origin, base), Marked(predicateBits, predicateOrigin, predicateBase);
    nodes, values, predicates := [], [], [];
    var offset, predicateOffset := base, predicateBase;
    NothingGathered(below, keep, keepPredicates, ds);
    for ix := 0 to |ds|
      invariant AllValid(ds[..ix]) && base <= offset == |Extended(below, ds[..ix]).entries| &&
        predicateBase <= predicateOffset == |Extended(below, ds[..ix]).predicates|
      invariant GatheredUpto(Extended(below, ds[..ix]), keep, keepPredicates, nodes, values, predicates)
    {
      ghost var table := Extended(below, ds[..ix]);
      ExtendedNext(below, ds, ix);
      ExtendedGrows(below, ds, ix + 1);
      var d := ds[ix];
      NodeRunOf(d, offset);
      ValueRunOf(d, offset);
      PredicateRunOf(d, predicateOffset);
      RunInRange(d.Outer(), IsNode, offset, NodeRun(d, offset), base, origin, |bits|);
      RunInRange(d.Outer(), IsValue, offset, ValueRun(d, offset), base, origin, |bits|);
      RunInRange(d.OuterPredicates(), Every, predicateOffset, PredicateRun(d, predicateOffset), predicateBase,
          predicateOrigin, |predicateBits|);
      var moreNodes := KeepMarked(NodeRun(d, offset), bits, origin, base);
      var morePredicates := KeepMarked(PredicateRun(d, predicateOffset), predicateBits, predicateOrigin, predicateBase);
      var moreValues := KeepMarked(ValueRun(d, offset), bits, origin, base);
      NumbersMore(table.entries, d.Outer(), IsNode, keep, nodes, NodeRun(d, offset));
      NumbersMore(table.entries, d.Outer(), IsValue, keep, values, ValueRun(d, offset));
      NumbersMore(table.predicates, d.OuterPredicates(), Every, keepPredicates, predicates,
          PredicateRun(d, predicateOffset));
      nodes, predicates, values := nodes + moreNodes, predicates + morePredicates, values + moreValues;
      offset := offset + (|d.nodes| + |d.values|);
      predicateOffset := predicateOffset + |d.predicates|;
    }
    assert ds[..|ds|] == ds;
  }

  lemma NothingGathered(below: Tables, keep: set<nat>, keepPredicates: set<nat>, ds: seq<Dictionary>)
    requires forall id :: id in keep ==> |below.entries| < id
    requires forall id :: id in keepPredicates ==> |below.predicates| < id
    ensures AllValid(ds[..0]) && Extended(below, ds[..0]) == below
    ensures GatheredUpto(Extended(below, ds[..0]), keep, keepPredicates, [], [], [])
  {
    NumbersNothing(below.entries, IsNode, keep);
    NumbersNothing(below.entries, IsValue, keep);
    NumbersNothing(below.predicates, Every, keepPredicates);
  }

  /* ---- marking, gathering, compacting ---- */

  /** Finds the entries above the base that the triples use, and compacts them. */
  method CompactUsed(ds: seq<Dictionary>, ts: seq<Triple>, base: nat, origin: nat, size: nat, predicateBase: nat,
      predicateOrigin: nat, predicateSize: nat, ghost below: Tables)
    returns (d: Dictionary, entryIds: Renumbering, predicateIds: Renumbering, ghost new_: Tables,
        ghost keep: set<nat>, ghost keepPredicates: set<nat>)
    requires AllValid(ds) && base == |below.entries| && predicateBase == |below.predicates| &&
      Extended(below, ds).Distinct()
    requires origin <= base + 1 && |Extended(below, ds).entries| + 1 == origin + size
    requires predicateOrigin <= predicateBase + 1 && |Extended(below, ds).predicates| + 1 ==
      predicateOrigin + predicateSize
    requires KnowsAll(Extended(below, ds), Elements(ts))
    ensures entryIds.base == base && predicateIds.base == predicateBase
    ensures Compacts(Extended(below, ds), new_, d, entryIds, predicateIds, keep, keepPredicates)
    ensures UsedAbove(ts, keep, base, |Extended(below, ds).entries|) &&
      PredicatesUsedAbove(ts, keepPredicates, predicateBase, |Extended(below, ds).predicates|)
  {
    hide AllValid, Extended, Tables.Distinct, KnowsAll, Compacts, Numbers, UsedAbove, PredicatesUsedAbove,
      SomeMentions, SomePredicate, Marked;
    ghost var full := Extended(below, ds);
    var existences := new bool[size](_ => false);
    var predicateExistences := new bool[predicateSize](_ => false);
    KnownFits(full, ts);
    MarkUsed(ts, existences, origin, predicateExistences, predicateOrigin);
    keep := Marked(existences[..], origin, base);
    keepPredicates := Marked(predicateExistences[..], predicateOrigin, predicateBase);
    MarkedAreUsed(ts, existences[..], origin, base);
    MarkedPredicatesAreUsed(ts, predicateExistences[..], predicateOrigin, predicateBase);
    var nodes, values, predicates := GatherUsed(ds, base, origin, existences[..], predicateBase, predicateOrigin,
      predicateExistences[..], below);
    UsedIsAbove(full, ts, keep, keepPredicates, base, predicateBase);
    ExtendedCounts(below, ds);
    d, entryIds, predicateIds, new_ := Compact(nodes, values, predicates, base, origin, size, predicateBase,
        predicateOrigin, predicateSize, full, keep, keepPredicates);
  }

  lemma ExtendedCounts(below: Tables, ds: seq<Dictionary>)
    requires AllValid(ds)
    ensures below.PrefixOf(Extended(below, ds))
    ensures |below.entries| <= |Extended(below, ds).entries| && |below.predicates| <= |Extended(below, ds).predicates|
  {
    hide Dictionary.Valid;
  }

  lemma KnownFits(full: Tables, ts: seq<Triple>)
    requires KnowsAll(full, Elements(ts))
    ensures Fits(ts, |full.entries| + 1, |full.predicates| + 1)
  {
    forall i | 0 <= i < |ts| ensures full.Knows(ts[i]) {
      assert ts[i] in Elements(ts);
    }
  }

  lemma KnownIsLive(full: Tables, ts: seq<Triple>)
    requires KnowsAll(full, Elements(ts)) && Distinct(ts)
    ensures Live(ts) == Elements(ts) && Distinct(Filter(Nonzero, ts)) && Filter(Nonzero, ts) == ts
  {
    forall i | 0 <= i < |ts| ensures Nonzero(ts[i]) {
      assert ts[i] in Elements(ts);
    }
    FilterKeepsAll(Nonzero, ts);
  }

  /* ---- squash ---- */

  lemma IncreasingDistinct(ord: Order, ts: seq<Triple>)
    requires Increasing(ord, ts)
    ensures Distinct(ts)
  {
  }

  /** One base layer for the whole stack. */
  method Squash(layer: InternalLayer, name: Name) returns (r: InternalLayer)
    requires Grounded(layer)
    ensures r.Base? && r.name == name && BaseFiles(r) && Grounded(r) && Meaning(r) == Meaning(layer)
    ensures r.dict.nodeValueIds == IdMap(None) && r.dict.predicateIds == IdMap(None)
    ensures forall e :: e in r.dict.Entries() <==> UsesEntry(Meaning(layer), e)
    ensures forall p :: p in r.dict.predicates <==> UsesPredicate(Meaning(layer), p)
  {
    hide Grounded, AllValid, Extended, Tables.Distinct, KnowsAll, Compacts, UsedAbove, PredicatesUsedAbove,
      DictsValid, InternalLayer.Valid, InternalLayer.TripleSet, TablesOf, Answers, Meaning, DecodeAll, Filter,
      Increasing, Distinct, Preserves, Elements, NodeAndValueCount, PredicateCount, UsesEntry, UsesPredicate;
    Parts(layer);
    var ds := ImmediateDicts(layer);
    WholeTable(layer, ds);
    ghost var full := TablesOf(layer);
    var ts := AllTriples(layer);
    AllKnown(layer, ts);
    var n, m := NodeAndValueCount(layer), PredicateCount(layer);
    var d, entryIds, predicateIds, new_, keep, keepPredicates :=
      CompactUsed(ds, ts, 0, 0, n + 1, 0, 0, m + 1, Tables([], []));
    Compacting(full, new_, d, entryIds, predicateIds, keep, keepPredicates);
    LivePreserved(full, new_, entryIds, predicateIds, keep, keepPredicates, ts, ts);
    var mapped := RenumberLive(entryIds, predicateIds, ts, full, new_);
    r := BuildBaseLayer(name, d, mapped);
    FinishSquash(r, full, new_, d, entryIds, predicateIds, keep, keepPredicates, ts, mapped);
  }

  lemma Parts(layer: InternalLayer)
    requires Grounded(layer)
    ensures layer.Valid() && DictsValid(layer) && TablesOf(layer).Distinct() &&
      KnowsAll(TablesOf(layer), layer.TripleSet())
    ensures Meaning(layer) == DecodeAll(TablesOf(layer), layer.TripleSet())
    ensures NodeAndValueCount(layer) == |TablesOf(layer).entries| &&
      PredicateCount(layer) == |TablesOf(layer).predicates|
  {
    hide InternalLayer.Valid, InternalLayer.TripleSet, Table, PredicateTable, DictsValid, NodeAndValueCount,
      PredicateCount;
  }

  lemma WholeTable(layer: InternalLayer, ds: seq<Dictionary>)
    requires DictsValid(layer) && AllValid(ds) && Outers(ds) == Table(layer) &&
      OuterPredicatesOf(ds) == PredicateTable(layer)
    ensures Extended(Tables([], []), ds) == TablesOf(layer)
  {
    hide DictsValid, AllValid, Outers, OuterPredicatesOf, Table, PredicateTable;
    assert [] + Table(layer) == Table(layer) && [] + PredicateTable(layer) == PredicateTable(layer);
  }

  lemma AllKnown(layer: InternalLayer, ts: seq<Triple>)
    requires Grounded(layer) && Answers(BySubject, Always(), layer.TripleSet(), ts)
    ensures DictsValid(layer) && layer.Valid()
    ensures Elements(ts) == layer.TripleSet() && Live(ts) == layer.TripleSet() && Distinct(ts) &&
      Distinct(Filter(Nonzero, ts))
    ensures KnowsAll(TablesOf(layer), Elements(ts)) && forall t :: t in ts <==> t in layer.TripleSet()
  {
    hide InternalLayer.Valid, InternalLayer.TripleSet, Table, PredicateTable, DictsValid, Filter;
    Rollups.AllReals(layer, ts);
    IncreasingDistinct(BySubject, ts);
    forall t ensures t in ts <==> t in layer.TripleSet() {
      assert t in ts <==> t in Elements(ts);
    }
  }

  lemma FinishSquash(r: InternalLayer, full: Tables, new_: Tables, d: Dictionary, entryIds: Renumbering,
      predicateIds: Renumbering,
      keep: set<nat>, keepPredicates: set<nat>, ts: seq<Triple>, mapped: seq<Triple>)
    requires r.Base? && r.dict == d && r.Valid() && r.TripleSet() == Live(mapped)
    requires full.Distinct() && entryIds.base == 0 && predicateIds.base == 0
    requires Compacts(full, new_, d, entryIds, predicateIds, keep, keepPredicates)
    requires UsedAbove(ts, keep, 0, |full.entries|) && PredicatesUsedAbove(ts, keepPredicates, 0, |full.predicates|)
    requires KnowsAll(full, Live(ts)) && KnowsAll(new_, Live(mapped)) &&
      DecodeAll(new_, Live(mapped)) == DecodeAll(full, Live(ts))
    requires forall t :: t in ts <==> t in Live(ts)
    ensures Grounded(r) && Meaning(r) == DecodeAll(full, Live(ts))
    ensures forall e :: e in d.Entries() <==> UsesEntry(DecodeAll(full, Live(ts)), e)
    ensures forall p :: p in d.predicates <==> UsesPredicate(DecodeAll(full, Live(ts)), p)
  {
    hide Grounded, Live, KnowsAll, DecodeAll, Compacts, Converts, UsedAbove, PredicatesUsedAbove, Tables.Distinct,
      InternalLayer.Valid, InternalLayer.TripleSet, Meaning, Dictionary.Outer, Dictionary.OuterPredicates,
      Dictionary.Valid, UsesEntry, UsesPredicate, Kept, DictsValid, Table, PredicateTable;
    Compacting(full, new_, d, entryIds, predicateIds, keep, keepPredicates);
    Rollups.BaseTables(r);
    assert new_ == Tables(d.Entries(), d.predicates);
    TablesGround(r, new_);
    var none := Tables([], []);
    forall e ensures e in d.Entries() <==> UsesEntry(DecodeAll(full, Live(ts)), e) {
      KeptEntries(full, new_, d, entryIds, predicateIds, keep, keepPredicates, e);
      CommittedEntries(none, full, Live(ts), ts, keep, e);
    }
    forall p ensures p in d.predicates <==> UsesPredicate(DecodeAll(full, Live(ts)), p) {
      KeptPredicates(full, new_, d, entryIds, predicateIds, keep, keepPredicates, p);
      CommittedPredicates(none, full, Live(ts), ts, keepPredicates, p);
    }
  }

  /* ---- squash up to an ancestor ---- */

  function Changed(changes: seq<Change>, kind: TripleChange): (ts: seq<Triple>) {
    if changes == [] then []
    else (if changes[0].0 == kind then [changes[0].1] else []) + Changed(changes[1..], kind)
  }

  lemma {:induction false} ChangedElement(changes: seq<Change>, kind: TripleChange, t: Triple)
    ensures t in Changed(changes, kind) <==> (kind, t) in changes
  {
    if changes != [] {
      ChangedElement(changes[1..], kind, t);
      assert (kind, t) in changes <==> changes[0] == (kind, t) || (kind, t) in changes[1..];
    }
  }

  lemma {:induction false} ChangedIncreases(changes: seq<Change>, kind: TripleChange)
    requires forall i, j :: 0 <= i < j < |changes| ==> Before(BySubject, changes[i].1, changes[j].1)
    ensures Increasing(BySubject, Changed(changes, kind))
  {
    if changes != [] {
      var rest := changes[1..];
      assert forall i :: 0 <= i < |rest| ==> rest[i] == changes[i + 1];
      ChangedIncreases(rest, kind);
      var ts := Changed(rest, kind);
      forall i | 0 <= i < |ts| ensures Before(BySubject, changes[0].1, ts[i]) {
        ChangedElement(rest, kind, ts[i]);
        var k :| 0 <= k < |rest| && rest[k] == (kind, ts[i]);
        assert Before(BySubject, changes[0].1, changes[k + 1].1);
      }
    }
  }

  /** Splits a difference into what is added and what is removed. */
  method SplitChanges(changes: seq<Change>) returns (adds: seq<Triple>, rems: seq<Triple>)
    ensures adds == Changed(changes, Addition) && rems == Changed(changes, Removal)
  {
    adds, rems := [], [];
    var i := |changes|;
    while i > 0
      invariant 0 <= i <= |changes| && adds == Changed(changes[i..], Addition) && rems == Changed(changes[i..], Removal)
    {
      i := i - 1;
      assert changes[i..][1..] == changes[i + 1..];
      match changes[i].0 {
        case Addition => adds := [changes[i].1] + adds;
        case Removal => rems := [changes[i].1] + rems;
      }
    }
    assert changes[0..] == changes;
  }

  lemma SplitDifference(changes: seq<Change>, top: set<Triple>, bottom: set<Triple>)
    requires IsDifference(changes, top, bottom)
    ensures Increasing(BySubject, Changed(changes, Addition)) && Increasing(BySubject, Changed(changes, Removal))
    ensures Elements(Changed(changes, Addition)) == top - bottom && Elements(Changed(changes, Removal)) == bottom - top
    ensures forall t :: t in Changed(changes, Addition) <==> t in top - bottom
  {
    hide Changed, Increasing;
    ChangedIncreases(changes, Addition);
    ChangedIncreases(changes, Removal);
    forall t ensures (t in Changed(changes, Addition) <==> t in top - bottom) &&
      (t in Changed(changes, Removal) <==> t in bottom - top) {
      ChangedElement(changes, Addition, t);
      ChangedElement(changes, Removal, t);
    }
  }

  /** The layers above `upto`: their dictionaries, and the triples of the topmost one. */
  ghost predicate StackAbove(upto: InternalLayer, ds: seq<Dictionary>, top: set<Triple>) {
    && Grounded(upto) && AllValid(ds)
    && Extended(TablesOf(upto), ds).Distinct() && KnowsAll(Extended(TablesOf(upto), ds), top)
  }

  lemma StackParts(upto: InternalLayer, ds: seq<Dictionary>, top: set<Triple>)
    requires StackAbove(upto, ds, top)
    ensures Grounded(upto) && upto.Valid() && DictsValid(upto) && AllValid(ds) && TablesOf(upto).Distinct() &&
      KnowsAll(TablesOf(upto), upto.TripleSet())
    ensures Extended(TablesOf(upto), ds).Distinct() && KnowsAll(Extended(TablesOf(upto), ds), top)
    ensures NodeAndValueCount(upto) == |TablesOf(upto).entries| && PredicateCount(upto) == |TablesOf(upto).predicates|
    ensures TablesOf(upto).PrefixOf(Extended(TablesOf(upto), ds))
    ensures KnowsAll(Extended(TablesOf(upto), ds), top - upto.TripleSet())
  {
    hide InternalLayer.Valid, InternalLayer.TripleSet, TablesOf, DictsValid, Extended, AllValid, Tables.Distinct,
      Meaning;
    Parts(upto);
    ExtendedCounts(TablesOf(upto), ds);
  }

  /** Ids of the ancestor are not renumbered. */
  lemma RemapStays(tables: Tables, entries: Renumbering, predicates: Renumbering, ts: seq<Triple>)
    requires KnowsAll(tables, Elements(ts)) && entries.base == |tables.entries| &&
      predicates.base == |tables.predicates|
    ensures RemapAll(entries, predicates, ts) == ts
  {
    forall i | 0 <= i < |ts| ensures RemapTriple(entries, predicates, ts[i]) == ts[i] {
      assert ts[i] in Elements(ts);
    }
  }

  lemma SortedAlready(ts: seq<Triple>, r: seq<Triple>)
    requires Increasing(BySubject, ts) && Sorted(SubjectOrder(), r) && multiset(r) == multiset(ts)
    ensures r == ts
  {
    AscendingIsIncreasing(ts);
    IncreasingDistinct(BySubject, ts);
    SortedDistinctAscends(SubjectOrder(), r, ts);
    AscendingIsUnique(SubjectOrder(), r, ts);
  }

  /** One child of `upto` for all the layers above it, from their dictionaries and their net
      difference. */
  method SquashUpto(name: Name, upto: InternalLayer, ds: seq<Dictionary>, changes: seq<Change>,
      ghost top: set<Triple>) returns (r: InternalLayer)
    requires StackAbove(upto, ds, top) && IsDifference(changes, top, upto.TripleSet())
    ensures r.Child? && r.name == name && r.parent == upto && Grounded(r) && AsWritten(r)
    ensures r.dict.nodeValueIds == IdMap(None) && r.dict.predicateIds == IdMap(None)
    ensures Meaning(r) == DecodeAll(Extended(TablesOf(upto), ds), top)
    ensures forall t :: TablesOf(upto).Knows(t) ==> (t in r.TripleSet() <==> t in top)
    ensures var added := DecodeAll(Extended(TablesOf(upto), ds), top - upto.TripleSet());
      forall e :: e in r.dict.Entries() <==> e !in TablesOf(upto).entries && UsesEntry(added, e)
    ensures var added := DecodeAll(Extended(TablesOf(upto), ds), top - upto.TripleSet());
      forall p :: p in r.dict.predicates <==> p !in TablesOf(upto).predicates && UsesPredicate(added, p)
  {
    hide StackAbove, IsDifference, Grounded, AllValid, Extended, Tables.Distinct, KnowsAll, Compacts, UsedAbove,
      PredicatesUsedAbove, DictsValid, InternalLayer.Valid, InternalLayer.TripleSet, TablesOf, Meaning, DecodeAll,
      Filter, Increasing, Distinct, Preserves, Elements, NodeAndValueCount, PredicateCount, UsesEntry, UsesPredicate,
      Live, Sorted;
    StackParts(upto, ds, top);
    ghost var below, full := TablesOf(upto), Extended(TablesOf(upto), ds);
    var base, predicateBase := NodeAndValueCount(upto), PredicateCount(upto);
    var stackCount, stackPredicates := CountEntries(ds, below);
    var adds, rems := SplitChanges(changes);
    SplitDifference(changes, top, upto.TripleSet());
    IncreasingDistinct(BySubject, adds);
    KnownIsLive(full, adds);
    var d, entryIds, predicateIds, new_, keep, keepPredicates :=
      CompactUsed(ds, adds, base, base, stackCount + 1, predicateBase, predicateBase, stackPredicates + 1, below);
    Compacting(full, new_, d, entryIds, predicateIds, keep, keepPredicates);
    LivePreserved(full, new_, entryIds, predicateIds, keep, keepPredicates, adds, adds);
    var pos := RenumberLive(entryIds, predicateIds, adds, full, new_);
    var neg := RenumberAndSort(entryIds, predicateIds, rems);
    RemovedAreKnown(below, upto.TripleSet(), rems);
    RemapStays(below, entryIds, predicateIds, rems);
    SortedAlready(rems, neg);
    IncreasingDistinct(BySubject, rems);
    KnownIsLive(below, rems);
    NewAreAbsent(below, full, new_, d, upto.TripleSet(), top, Live(pos), entryIds, predicateIds);
    LiveIs(pos);
    LiveIs(neg);
    r := BuildChildLayer(name, upto, d, pos, neg);
    FinishSquashUpto(r, upto, below, full, new_, d, entryIds, predicateIds, keep, keepPredicates, top, adds, Live(pos));
  }

  lemma LiveIs(ts: seq<Triple>)
    ensures Live(ts) == Elements(Filter(Nonzero, ts))
  {
  }

  /** How many entries and predicates the dictionaries hold together. */
  method CountEntries(ds: seq<Dictionary>, ghost below: Tables) returns (n: nat, m: nat)
    requires AllValid(ds)
    ensures |Extended(below, ds).entries| == |below.entries| + n &&
      |Extended(below, ds).predicates| == |below.predicates| + m
  {
    hide Dictionary.Valid, Dictionary.Outer, Dictionary.OuterPredicates, AllValid, Extended;
    n, m := 0, 0;
    NothingGathered(below, {}, {}, ds);
    for i := 0 to |ds|
      invariant AllValid(ds[..i])
      invariant |Extended(below, ds[..i]).entries| == |below.entries| + n &&
        |Extended(below, ds[..i]).predicates| == |below.predicates| + m
    {
      ExtendedNext(below, ds, i);
      n := n + (|ds[i].nodes| + |ds[i].values|);
      m := m + |ds[i].predicates|;
    }
    assert ds[..|ds|] == ds;
  }

  lemma RemovedAreKnown(below: Tables, bottom: set<Triple>, rems: seq<Triple>)
    requires KnowsAll(below, bottom) && Elements(rems) <= bottom
    ensures KnowsAll(below, Elements(rems))
  {
  }

  /** What the squashed layer adds is not in the ancestor. */
  lemma NewAreAbsent(below: Tables, full: Tables, new_: Tables, d: Dictionary, bottom: set<Triple>, top: set<Triple>,
      pos: set<Triple>, entries: Renumbering, predicates: Renumbering)
    requires below.PrefixOf(full) && full.Distinct() && KnowsAll(below, bottom) && KnowsAll(full, top - bottom)
    requires new_ == Tables(full.entries[..|below.entries|] + d.Entries(),
      full.predicates[..|below.predicates|] + d.predicates)
    requires KnowsAll(new_, pos) && DecodeAll(new_, pos) == DecodeAll(full, top - bottom)
    ensures below.PrefixOf(new_) && pos !! bottom
  {
    hide Tables.Distinct, Dictionary.Entries;
    assert full.entries[..|below.entries|] == below.entries &&
      full.predicates[..|below.predicates|] == below.predicates;
    forall t | t in pos && t in bottom ensures false {
      assert below.Knows(t) && Decode(new_, t) == Decode(full, t);
      assert Decode(full, t) in DecodeAll(full, top - bottom);
      DecodedMember(full, top - bottom, t);
    }
  }

  lemma FinishSquashUpto(r: InternalLayer, upto: InternalLayer, below: Tables, full: Tables, new_: Tables,
      d: Dictionary, entryIds: Renumbering, predicateIds: Renumbering,
      keep: set<nat>, keepPredicates: set<nat>, top: set<Triple>, adds: seq<Triple>, pos: set<Triple>)
    requires r.Child? && r.parent == upto && r.dict == d && r.Valid() && Grounded(upto) && below == TablesOf(upto)
    requires r.TripleSet() == upto.TripleSet() - (upto.TripleSet() - top) + pos
    requires below.PrefixOf(full) && full.Distinct() && KnowsAll(below, upto.TripleSet()) && KnowsAll(full, top)
    requires entryIds.base == |below.entries| && predicateIds.base == |below.predicates| && below.PrefixOf(new_)
    requires Compacts(full, new_, d, entryIds, predicateIds, keep, keepPredicates)
    requires UsedAbove(adds, keep, entryIds.base, |full.entries|) &&
      PredicatesUsedAbove(adds, keepPredicates, predicateIds.base, |full.predicates|)
    requires forall t :: t in adds <==> t in top - upto.TripleSet()
    requires KnowsAll(full, top - upto.TripleSet()) && KnowsAll(new_, pos) &&
      DecodeAll(new_, pos) == DecodeAll(full, top - upto.TripleSet())
    ensures Grounded(r) && Meaning(r) == DecodeAll(full, top)
    ensures forall t :: below.Knows(t) ==> (t in r.TripleSet() <==> t in top)
    ensures forall e :: e in d.Entries() <==>
      e !in below.entries && UsesEntry(DecodeAll(full, top - upto.TripleSet()), e)
    ensures forall p :: p in d.predicates <==>
      p !in below.predicates && UsesPredicate(DecodeAll(full, top - upto.TripleSet()), p)
  {
    hide Grounded, KnowsAll, DecodeAll, Compacts, Converts, UsedAbove, PredicatesUsedAbove, Tables.Distinct,
      InternalLayer.Valid, InternalLayer.TripleSet, Meaning, Dictionary.Outer, Dictionary.OuterPredicates,
      Dictionary.Valid, UsesEntry, UsesPredicate, Kept, DictsValid, TablesOf, Table, PredicateTable;
    Compacting(full, new_, d, entryIds, predicateIds, keep, keepPredicates);
    Parts(upto);
    ghost var bottom := upto.TripleSet();
    assert full.entries[..entryIds.base] == below.entries && full.predicates[..predicateIds.base] == below.predicates;
    UptoTables(r, upto);
    SquashedStrings(below, full, new_, bottom, top, pos);
    TablesGround(r, new_);
    forall t | below.Knows(t) ensures t in r.TripleSet() <==> t in top {
      SameIdSameTriple(below, full, new_, DecodeAll(full, top), r.TripleSet(), top, t);
    }
    forall e ensures e in d.Entries() <==> e !in below.entries && UsesEntry(DecodeAll(full, top - bottom), e) {
      KeptEntries(full, new_, d, entryIds, predicateIds, keep, keepPredicates, e);
      CommittedEntries(below, full, top - bottom, adds, keep, e);
    }
    forall p ensures p in d.predicates <==> p !in below.predicates && UsesPredicate(DecodeAll(full, top - bottom), p) {
      KeptPredicates(full, new_, d, entryIds, predicateIds, keep, keepPredicates, p);
      CommittedPredicates(below, full, top - bottom, adds, keepPredicates, p);
    }
  }

  lemma UptoTables(r: InternalLayer, upto: InternalLayer)
    requires r.Child? && r.parent == upto && r.dict.Valid() && Grounded(upto)
    ensures DictsValid(r) && DictsValid(upto)
    ensures TablesOf(r) == Tables(TablesOf(upto).entries + r.dict.Outer(),
      TablesOf(upto).predicates + r.dict.OuterPredicates())
  {
    hide InternalLayer.Valid, InternalLayer.TripleSet, Dictionary.Valid, Dictionary.Outer, Dictionary.OuterPredicates;
  }

  lemma SquashedStrings(below: Tables, full: Tables, new_: Tables, bottom: set<Triple>, top: set<Triple>,
      pos: set<Triple>)
    requires below.PrefixOf(full) && below.PrefixOf(new_) && full.Distinct() && new_.Distinct()
    requires KnowsAll(below, bottom) && KnowsAll(full, top) && KnowsAll(full, top - bottom) && KnowsAll(new_, pos) &&
      DecodeAll(new_, pos) == DecodeAll(full, top - bottom)
    ensures var after := bottom - (bottom - top) + pos;
      KnowsAll(new_, after) && DecodeAll(new_, after) == DecodeAll(full, top)
  {
    hide KnowsAll, DecodeAll, Tables.Distinct, Tables.PrefixOf;
    var gone := bottom - top;
    DecodedSubset(below, bottom, gone);
    DecodedInLarger(below, full, bottom);
    DecodedInLarger(below, new_, bottom);
    DecodedInLarger(below, full, gone);
    DecodedInLarger(below, new_, gone);
    DecodedChange(new_, bottom, gone, pos);
    DecodedChange(full, bottom, gone, top - bottom);
    assert bottom - gone + (top - bottom) == top;
  }

  lemma DecodedSubset(tables: Tables, all: set<Triple>, some: set<Triple>)
    requires KnowsAll(tables, all) && some <= all
    ensures KnowsAll(tables, some)
  {
  }

  /** Through tables that agree on the ancestor's ids, the same id triple is meant. */
  lemma SameIdSameTriple(below: Tables, full: Tables, new_: Tables, sts: set<StringTriple>, after: set<Triple>,
      top: set<Triple>, t: Triple)
    requires below.PrefixOf(full) && below.PrefixOf(new_) && full.Distinct() && new_.Distinct() && below.Knows(t)
    requires KnowsAll(new_, after) && KnowsAll(full, top) && DecodeAll(new_, after) == sts == DecodeAll(full, top)
    ensures t in after <==> t in top
  {
    hide KnowsAll, DecodeAll, Tables.Distinct;
    assert Decode(new_, t) == Decode(full, t);
    DecodedMember(new_, after, t);
    DecodedMember(full, top, t);
  }
}
