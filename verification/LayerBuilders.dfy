/** The layer builder: collects requested additions and removals under provisional ids and, on
    commit, turns them into a layer. */
module LayerBuilders {
  import opened Sorting
  import opened Triples
  import opened Dictionaries
  import opened InternalLayers
  import opened IdTranslation
  import opened StringTriples
  import opened Remapping
  import opened Numberings
  import opened Compaction
  import opened Commits
  import opened LayerFileBuilders
  import opened LayerQueries

  ghost predicate GroundedParent(parent: Option<InternalLayer>) {
    parent.Some? ==> Grounded(parent.value)
  }

  ghost function BaseTables(parent: Option<InternalLayer>): Tables
    requires GroundedParent(parent)
  {
    if parent.None? then Tables([], []) else TablesOf(parent.value)
  }

  ghost function BaseTriples(parent: Option<InternalLayer>): set<Triple>
    requires GroundedParent(parent)
  {
    if parent.None? then {} else parent.value.TripleSet()
  }

  ghost function BaseMeaning(parent: Option<InternalLayer>): set<StringTriple>
    requires GroundedParent(parent)
  {
    if parent.None? then {} else Meaning(parent.value)
  }

  lemma BaseFacts(parent: Option<InternalLayer>)
    requires GroundedParent(parent)
    ensures BaseTables(parent).Distinct() && KnowsAll(BaseTables(parent), BaseTriples(parent))
    ensures BaseMeaning(parent) == DecodeAll(BaseTables(parent), BaseTriples(parent))
  {
    hide InternalLayer.TripleSet, InternalLayer.Valid, Table, PredicateTable, DictsValid;
  }

  ghost predicate UsesEntry(sts: set<StringTriple>, e: Entry) {
    exists st :: st in sts && (st.subj == e || st.obj == e)
  }

  ghost predicate UsesPredicate(sts: set<StringTriple>, p: Str) {
    exists st :: st in sts && st.pred == p
  }

  /** What the parent, if any, calls an entry. */
  method ParentEntryId(parent: Option<InternalLayer>, e: Entry) returns (known: Option<nat>)
    requires GroundedParent(parent)
    ensures known.Some? ==>
      1 <= known.value <= |BaseTables(parent).entries| && BaseTables(parent).entries[known.value - 1] == e
    ensures known.None? ==> e !in BaseTables(parent).entries
  {
    hide Grounded, GroundedParent, BaseTables, DictsValid, Table, PredicateTable;
    known := None;
    NoParentTables(parent);
    if parent.Some? {
      ParentTables(parent);
      known := EntryId(parent.value, e);
    }
  }

  method ParentPredicateId(parent: Option<InternalLayer>, p: Str) returns (known: Option<nat>)
    requires GroundedParent(parent)
    ensures known.Some? ==>
      1 <= known.value <= |BaseTables(parent).predicates| && BaseTables(parent).predicates[known.value - 1] == p
    ensures known.None? ==> p !in BaseTables(parent).predicates
  {
    hide Grounded, GroundedParent, BaseTables, DictsValid, Table, PredicateTable;
    known := None;
    NoParentTables(parent);
    if parent.Some? {
      ParentTables(parent);
      known := PredicateId(parent.value, p);
    }
  }

  class SimpleLayerBuilder {
    const name: Name
    const parent: Option<InternalLayer>
    var idAdditions: seq<Triple>
    var idRemovals: seq<Triple>
    var nodesValuesMap: map<Entry, nat>
    var predicatesMap: map<Str, nat>
    var nodesValuesMapCount: nat
    var predicatesMapCount: nat
    var nodeCount: nat
    var predCount: nat
    var valCount: nat
    /** The entries and predicates given provisional ids so far, in id order. */
    ghost var newEntries: seq<Entry>
    ghost var newPredicates: seq<Str>

    /** The parent's tables, extended by the provisional ids. */
    ghost function Full(): Tables
      requires GroundedParent(parent)
      reads this
    {
      Tables(BaseTables(parent).entries + newEntries, BaseTables(parent).predicates + newPredicates)
    }

    ghost predicate CountsAgree()
      requires GroundedParent(parent)
      reads this
    {
      && nodesValuesMapCount == |Full().entries| && nodeCount + valCount == |newEntries|
      && predicatesMapCount == |Full().predicates| && predCount == |newPredicates|
    }

    ghost predicate MapsAgree()
      requires GroundedParent(parent)
      reads this
    {
      && NamesBy(Full().entries, nodesValuesMap) && (forall i :: 0 <= i < |newEntries| ==>
        newEntries[i] in nodesValuesMap)
      && NamesBy(Full().predicates, predicatesMap) &&
        (forall i :: 0 <= i < |newPredicates| ==> newPredicates[i] in predicatesMap)
    }

    ghost predicate Valid()
      reads this
    {
      && GroundedParent(parent) && Full().Distinct() && CountsAgree() && MapsAgree()
      && KnowsAll(Full(), Elements(idAdditions)) && KnowsAll(Full(), Elements(idRemovals))
    }

    /** The triples asked to be added, as strings. */
    ghost function Additions(): set<StringTriple>
      requires Valid()
      reads this
    {
      DecodeAll(Full(), Elements(idAdditions))
    }

    ghost function Removals(): set<StringTriple>
      requires Valid()
      reads this
    {
      DecodeAll(Full(), Elements(idRemovals))
    }

    constructor (name: Name, parent: Option<InternalLayer>)
      requires GroundedParent(parent)
      ensures Valid() && this.name == name && this.parent == parent && Additions() == {} && Removals() == {}
    {
      this.name, this.parent := name, parent;
      idAdditions, idRemovals := [], [];
      nodesValuesMap, predicatesMap := map[], map[];
      nodesValuesMapCount := if parent.None? then 0 else NodeAndValueCount(parent.value);
      predicatesMapCount := if parent.None? then 0 else PredicateCount(parent.value);
      nodeCount, predCount, valCount := 0, 0, 0;
      newEntries, newPredicates := [], [];
      new;
      hide Grounded, GroundedParent, Tables.Distinct, BaseTables;
      BaseFacts(parent);
      assert Full() == BaseTables(parent);
    }

    lemma Remembered(e: Entry)
      requires Valid()
      ensures GroundedParent(parent) && Full() == Tables(BaseTables(parent).entries + newEntries,
        BaseTables(parent).predicates + newPredicates)
      ensures e in nodesValuesMap ==>
        1 <= nodesValuesMap[e] <= |Full().entries| && Full().entries[nodesValuesMap[e] - 1] == e
      ensures e !in nodesValuesMap ==> e !in newEntries
    {
      hide Grounded, Tables.Distinct, KnowsAll, BaseTables;
    }

    /** Remembers the parent's id of an entry. */
    method RememberEntry(e: Entry, id: nat)
      requires Valid() && 1 <= id <= |Full().entries| && Full().entries[id - 1] == e
      modifies this`nodesValuesMap
      ensures Valid() && nodesValuesMap == old(nodesValuesMap)[e := id]
    {
      hide Grounded, Tables.Distinct, KnowsAll, GroundedParent, BaseTables, NamesBy;
      MoreNames(Full().entries, Full().entries, nodesValuesMap, e, id);
      nodesValuesMap := nodesValuesMap[e := id];
    }

    /** Gives a new entry the next provisional id. */
    method NewEntry(e: Entry) returns (id: nat)
      requires Valid() && e !in Full().entries
      modifies this`nodesValuesMap, this`nodesValuesMapCount, this`nodeCount, this`valCount, this`newEntries
      ensures Valid() && Full() == Tables(old(Full()).entries + [e], old(Full()).predicates)
      ensures id == |Full().entries|
    {
      hide Grounded, Tables.Distinct, KnowsAll, GroundedParent, BaseTables, NamesBy;
      ghost var before := Full();
      nodesValuesMapCount := nodesValuesMapCount + 1;
      if e.Node? {
        nodeCount := nodeCount + 1;
      } else {
        valCount := valCount + 1;
      }
      id := nodesValuesMapCount;
      newEntries := newEntries + [e];
      assert Full() == Tables(before.entries + [e], before.predicates);
      OneMoreEntry(before, Full(), e);
      MoreNames(before.entries, Full().entries, nodesValuesMap, e, id);
      MoreKnown(before, Full(), Elements(idAdditions));
      MoreKnown(before, Full(), Elements(idRemovals));
      nodesValuesMap := nodesValuesMap[e := id];
    }

    /** The id of an entry: the one it was given before, the parent's, or the next provisional
        one. */
    method EntryIdFor(e: Entry) returns (id: nat)
      requires Valid()
      modifies this
      ensures Valid() && idAdditions == old(idAdditions) && idRemovals == old(idRemovals)
      ensures old(Full()).PrefixOf(Full()) && newPredicates == old(newPredicates)
      ensures 1 <= id <= |Full().entries| && Full().entries[id - 1] == e
    {
      hide Grounded, GroundedParent, BaseTables, SimpleLayerBuilder.Valid;
      Remembered(e);
      if e in nodesValuesMap {
        return nodesValuesMap[e];
      }
      var known := ParentEntryId(parent, e);
      match known {
        case Some(n) =>
          id := n;
          RememberEntry(e, id);
        case None =>
          id := NewEntry(e);
      }
    }

    method RememberPredicate(p: Str, id: nat)
      requires Valid() && 1 <= id <= |Full().predicates| && Full().predicates[id - 1] == p
      modifies this`predicatesMap
      ensures Valid() && predicatesMap == old(predicatesMap)[p := id]
    {
      hide Grounded, Tables.Distinct, KnowsAll, GroundedParent, BaseTables, NamesBy;
      MoreNames(Full().predicates, Full().predicates, predicatesMap, p, id);
      predicatesMap := predicatesMap[p := id];
    }

    method NewPredicate(p: Str) returns (id: nat)
      requires Valid() && p !in Full().predicates
      modifies this`predicatesMap, this`predicatesMapCount, this`predCount, this`newPredicates
      ensures Valid() && Full() == Tables(old(Full()).entries, old(Full()).predicates + [p])
      ensures id == |Full().predicates|
    {
      hide Grounded, Tables.Distinct, KnowsAll, GroundedParent, BaseTables, NamesBy;
      ghost var before := Full();
      predicatesMapCount := predicatesMapCount + 1;
      predCount := predCount + 1;
      id := predicatesMapCount;
      newPredicates := newPredicates + [p];
      assert Full() == Tables(before.entries, before.predicates + [p]);
      OneMorePredicate(before, Full(), p);
      MoreNames(before.predicates, Full().predicates, predicatesMap, p, id);
      MoreKnown(before, Full(), Elements(idAdditions));
      MoreKnown(before, Full(), Elements(idRemovals));
      predicatesMap := predicatesMap[p := id];
    }

    method PredicateIdFor(p: Str) returns (id: nat)
      requires Valid()
      modifies this
      ensures Valid() && idAdditions == old(idAdditions) && idRemovals == old(idRemovals)
      ensures old(Full()).PrefixOf(Full()) && newEntries == old(newEntries)
      ensures 1 <= id <= |Full().predicates| && Full().predicates[id - 1] == p
    {
      hide Grounded, Tables.Distinct, KnowsAll, GroundedParent, BaseTables, NamesBy, CountsAgree;
      if p in predicatesMap {
        NamedAt(Full().predicates, predicatesMap, p);
        return predicatesMap[p];
      }
      var known := ParentPredicateId(parent, p);
      match known {
        case Some(n) =>
          id := n;
          RememberPredicate(p, id);
        case None =>
          id := NewPredicate(p);
      }
    }

    /** Translates a string triple to ids, giving out provisional ids where needed. */
    method CalculateTriple(st: StringTriple) returns (t: Triple)
      requires Valid()
      modifies this
      ensures Valid() && idAdditions == old(idAdditions) && idRemovals == old(idRemovals)
      ensures old(Full()).PrefixOf(Full())
      ensures Full().Knows(t) && Decode(Full(), t) == st
    {
      hide Grounded, Tables.Distinct, KnowsAll, GroundedParent, BaseTables, NamesBy;
      var s := EntryIdFor(st.subj);
      var p := PredicateIdFor(st.pred);
      var o := EntryIdFor(st.obj);
      t := Triple(s, p, o);
    }

    method AddValueTriple(st: StringTriple)
      requires Valid()
      modifies this
      ensures Valid() && Additions() == old(Additions()) + {st} && Removals() == old(Removals())
    {
      hide Grounded, Tables.Distinct, KnowsAll, GroundedParent, BaseTables, NamesBy, Decode, DecodeAll, Elements;
      ghost var before := Full();
      var t := CalculateTriple(st);
      DecodedInLarger(before, Full(), Elements(idAdditions));
      DecodedInLarger(before, Full(), Elements(idRemovals));
      OneMoreTriple(Full(), idAdditions, t);
      idAdditions := idAdditions + [t];
    }

    method RemoveValueTriple(st: StringTriple)
      requires Valid()
      modifies this
      ensures Valid() && Removals() == old(Removals()) + {st} && Additions() == old(Additions())
    {
      hide Grounded, Tables.Distinct, KnowsAll, GroundedParent, BaseTables, NamesBy, Decode, DecodeAll, Elements;
      ghost var before := Full();
      var t := CalculateTriple(st);
      DecodedInLarger(before, Full(), Elements(idAdditions));
      DecodedInLarger(before, Full(), Elements(idRemovals));
      OneMoreTriple(Full(), idRemovals, t);
      idRemovals := idRemovals + [t];
    }

    /** Id triples are given in ids of the parent or in provisional ones; the commit panics on others. */
    method AddIdTriple(t: Triple)
      requires Valid() && Full().Knows(t)
      modifies this
      ensures Valid() && Full() == old(Full()) && Additions() == old(Additions()) + {Decode(Full(), t)} &&
        Removals() == old(Removals())
      ensures BaseTables(parent).Knows(t) ==> Decode(Full(), t) == Decode(BaseTables(parent), t)
    {
      hide Grounded, Tables.Distinct, KnowsAll, GroundedParent, BaseTables, NamesBy, DecodeAll, Elements;
      OneMoreTriple(Full(), idAdditions, t);
      idAdditions := idAdditions + [t];
    }

    method RemoveIdTriple(t: Triple)
      requires Valid() && Full().Knows(t)
      modifies this
      ensures Valid() && Full() == old(Full()) && Removals() == old(Removals()) + {Decode(Full(), t)} &&
        Additions() == old(Additions())
      ensures BaseTables(parent).Knows(t) ==> Decode(Full(), t) == Decode(BaseTables(parent), t)
    {
      hide Grounded, Tables.Distinct, KnowsAll, GroundedParent, BaseTables, NamesBy, DecodeAll, Elements;
      OneMoreTriple(Full(), idRemovals, t);
      idRemovals := idRemovals + [t];
    }

    lemma Parents()
      requires Valid()
      ensures GroundedParent(parent) && Full().Distinct()
    {
    }

    lemma State()
      requires Valid()
      ensures BaseTables(parent).PrefixOf(Full()) && KnowsAll(Full(), Elements(idAdditions)) &&
        KnowsAll(Full(), Elements(idRemovals))
      ensures |Full().entries| == |BaseTables(parent).entries| + nodeCount + valCount
      ensures |Full().predicates| == |BaseTables(parent).predicates| + predCount
      ensures Extends(Full(), |BaseTables(parent).entries|, |BaseTables(parent).predicates|, nodesValuesMap,
        predicatesMap)
    {
      hide Grounded, Tables.Distinct, KnowsAll, BaseTables, GroundedParent, NamesBy;
    }

    /** Commits: the new layer holds what the parent held, changed as asked. */
    method Commit() returns (layer: InternalLayer)
      requires Valid()
      ensures CommitOf(layer, name, parent, Additions(), Removals())
      ensures AsWritten(layer) && (parent.None? ==> BaseFiles(layer))
    {
      hide SimpleLayerBuilder.Valid, Grounded, GroundedParent, Extends, Live, Filter, Increasing, Fits, Distinct,
        KnowsAll, DecodeAll, CommitOf, Compacts, Converts, BaseTables, BaseTriples, BaseMeaning, UsedAbove,
        PredicatesUsedAbove, Numbers, Tables.Distinct, Elements, Preserves, Committed, AllReal;
      State();
      Parents();
      ghost var full := Full();
      var parentOffset := if parent.None? then 0 else NodeAndValueCount(parent.value);
      var parentPredicateOffset := if parent.None? then 0 else PredicateCount(parent.value);
      ParentOffsets(parent);
      KnownAreReal(full, idAdditions);
      KnownAreReal(full, idRemovals);
      var adds, rems := Survive(idAdditions, idRemovals, parentOffset, parentPredicateOffset);
      SurvivorsKnown(full, idAdditions, idRemovals, adds, rems, parentOffset, parentPredicateOffset);
      var nodes, values, predicates, keep, keepPredicates :=
        CollectUsed(adds + rems, parentOffset, parentPredicateOffset, nodeCount + valCount, predCount, nodesValuesMap,
        predicatesMap, full);
      UsedIsAbove(full, adds + rems, keep, keepPredicates, parentOffset, parentPredicateOffset);
      var d, entryIds, predicateIds, new_ := Compact(nodes, values, predicates,
        parentOffset, parentOffset + 1, nodeCount + valCount, parentPredicateOffset, parentPredicateOffset + 1,
            predCount,
        full, keep, keepPredicates);
      Compacting(full, new_, d, entryIds, predicateIds, keep, keepPredicates);
      LivePreserved(full, new_, entryIds, predicateIds, keep, keepPredicates, adds + rems, adds);
      LivePreserved(full, new_, entryIds, predicateIds, keep, keepPredicates, adds + rems, rems);
      var pos := RenumberLive(entryIds, predicateIds, adds, full, new_);
      var neg := RenumberLive(entryIds, predicateIds, rems, full, new_);
      layer := BuildLayer(name, parent, d, pos, neg);
      FinishCommit(layer, name, parent, full, new_, d, entryIds, predicateIds, keep, keepPredicates, idAdditions,
          idRemovals, adds, rems, pos, neg);
      CommittedFiles(layer, name, parent, Additions(), Removals());
    }
  }

  /* ---- commit ---- */

  /** Sorts and deduplicates the requests and cancels the no-ops. */
  method Survive(idAdditions: seq<Triple>, idRemovals: seq<Triple>, base: nat,
      basePredicates: nat) returns (adds: seq<Triple>, rems: seq<Triple>)
    requires AllReal(idAdditions) && AllReal(idRemovals)
    ensures Live(adds) == Elements(idAdditions) - Elements(idRemovals)
    ensures Live(rems) == set t | t in Elements(idRemovals) - Elements(idAdditions) && !Beyond(t, base, basePredicates)
    ensures Distinct(Filter(Nonzero, adds)) && Distinct(Filter(Nonzero, rems))
    ensures forall t :: t in adds ==> t == ZERO || t in Live(adds)
    ensures forall t :: t in rems ==> t == ZERO || t in Live(rems)
  {
    hide Filter, Live, Ascending, Distinct, Increasing, AscendingOf;
    var as_, rs := AscendingOf(SubjectOrder(), idAdditions), AscendingOf(SubjectOrder(), idRemovals);
    AscendingIsIncreasing(as_);
    AscendingIsIncreasing(rs);
    var a := new Triple[|as_|](i requires 0 <= i < |as_| => as_[i]);
    var r := new Triple[|rs|](i requires 0 <= i < |rs| => rs[i]);
    assert a[..] == as_ && r[..] == rs;
    CancelNoops(a, r, base, basePredicates);
    adds, rems := a[..], r[..];
    AllRealElements(idAdditions);
    AllRealElements(idRemovals);
    Survivors(as_, rs, adds, rems, base, basePredicates);
    AscendsDistinct(as_);
    AscendsDistinct(rs);
    SurvivorsDistinct(as_, adds);
    SurvivorsDistinct(rs, rems);
    SurvivorsLive(idAdditions, as_, adds);
    SurvivorsLive(idRemovals, rs, rems);
  }

  lemma AllRealElements(ts: seq<Triple>)
    requires AllReal(ts)
    ensures RealOf(Elements(ts)) == Elements(ts)
  {
  }

  lemma AscendsDistinct(ts: seq<Triple>)
    requires Ascending(SubjectOrder(), ts)
    ensures Distinct(ts)
  {
  }

  lemma SurvivorsLive(requested: seq<Triple>, ts: seq<Triple>, ts': seq<Triple>)
    requires AllReal(requested) && Elements(ts) == Elements(requested)
    requires |ts'| == |ts| && forall k :: 0 <= k < |ts| ==> ts'[k] == ts[k] || ts'[k] == ZERO
    ensures forall t :: t in ts' ==> t == ZERO || t in Live(ts')
  {
    hide Live;
    forall t | t in ts' && t != ZERO ensures t in Live(ts') {
      var k :| 0 <= k < |ts'| && ts'[k] == t;
      assert t in Elements(requested);
      LiveAre(ts', t);
    }
  }

  /** The part of a lookup state the commit needs. */
  ghost predicate Extends(full: Tables, base: nat, basePredicates: nat, m: map<Entry, nat>, pm: map<Str, nat>) {
    && full.Distinct() && base <= |full.entries| && basePredicates <= |full.predicates|
    && NamesBy(full.entries, m) && (forall i :: base <= i < |full.entries| ==> full.entries[i] in m)
    && NamesBy(full.predicates, pm) && (forall i :: basePredicates <= i < |full.predicates| ==>
      full.predicates[i] in pm)
  }

  /** The provisional entries that surviving triples use. */
  method CollectUsed(ts: seq<Triple>, base: nat, basePredicates: nat, size: nat, predicateSize: nat, m: map<Entry,
      nat>, pm: map<Str, nat>, ghost full: Tables)
    returns (nodes: seq<(Entry, nat)>, values: seq<(Entry, nat)>, predicates: seq<(Str, nat)>, ghost keep: set<nat>,
        ghost keepPredicates: set<nat>)
    requires Extends(full, base, basePredicates, m, pm)
    requires |full.entries| == base + size && |full.predicates| == basePredicates + predicateSize
    requires Fits(ts, base + 1 + size, basePredicates + 1 + predicateSize)
    ensures UsedAbove(ts, keep, base, |full.entries|) &&
      PredicatesUsedAbove(ts, keepPredicates, basePredicates, |full.predicates|)
    ensures Numbers(full.entries, IsNode, keep, nodes) && Numbers(full.entries, IsValue, keep, values)
    ensures Numbers(full.predicates, Every, keepPredicates, predicates)
  {
    hide Numbers, NamesBy, Distinct, Fits, SomeMentions, SomePredicate;
    var existences := new bool[size](_ => false);
    var predicateExistences := new bool[predicateSize](_ => false);
    MarkUsed(ts, existences, base + 1, predicateExistences, basePredicates + 1);
    keep := Marked(existences[..], base + 1, base);
    keepPredicates := Marked(predicateExistences[..], basePredicates + 1, basePredicates);
    assert UsedAbove(ts, keep, base, |full.entries|) by {
      MarkedAreUsed(ts, existences[..], base + 1, base);
    }
    assert PredicatesUsedAbove(ts, keepPredicates, basePredicates, |full.predicates|) by {
      MarkedPredicatesAreUsed(ts, predicateExistences[..], basePredicates + 1, basePredicates);
    }
    nodes, values := CollectEntries(m, base, existences[..], full.entries);
    predicates := CollectPredicates(pm, basePredicates, predicateExistences[..], full.predicates);
  }

  /** Surviving triples only use ids that are kept. */
  lemma LivePreserved(full: Tables, new_: Tables, entries: Renumbering, predicates: Renumbering, keep: set<nat>,
      keepPredicates: set<nat>, all: seq<Triple>, ts: seq<Triple>)
    requires Converts(full, new_, entries, predicates, keep, keepPredicates)
    requires UsedAbove(all, keep, entries.base, |full.entries|) &&
      PredicatesUsedAbove(all, keepPredicates, predicates.base, |full.predicates|)
    requires KnowsAll(full, Live(ts)) && forall t :: t in ts ==> t in all
    ensures Preserves(entries, predicates, full, new_, Live(ts))
  {
    hide Live, RemapTriple, SaysTheSame;
    forall t | t in Live(ts) ensures SaysTheSame(full, new_, t, RemapTriple(entries, predicates, t)) {
      LiveAre(ts, t);
      var i :| 0 <= i < |all| && all[i] == t;
      assert Mentions(all[i], t.s) && Mentions(all[i], t.o) && all[i].p == t.p;
      assert SomeMentions(all, t.s) && SomeMentions(all, t.o) && SomePredicate(all, t.p);
      assert full.Knows(t);
      assert Uses(t, entries.base, keep, predicates.base, keepPredicates);
    }
  }

  /* ---- what the commit amounts to in strings ---- */

  /** The contents a commit must produce: what the parent holds, without what was removed and
      not also added, with what was added and not also removed. */
  ghost function Committed(before: set<StringTriple>, adds: set<StringTriple>,
      removes: set<StringTriple>): set<StringTriple> {
    (before - (removes - adds)) + (adds - removes)
  }

  /** Ids, provisional or final, do not matter to the strings. */
  lemma CommittedStrings(base: Tables, full: Tables, new_: Tables, before: set<Triple>, adds: set<Triple>,
      removes: set<Triple>, pos: set<Triple>, neg: set<Triple>)
    requires base.PrefixOf(full) && base.PrefixOf(new_) && full.Distinct() && new_.Distinct()
    requires KnowsAll(base, before) && KnowsAll(full, adds) && KnowsAll(full, removes)
    requires KnowsAll(new_, pos) && DecodeAll(new_, pos) == DecodeAll(full, adds - removes)
    requires var in_ := set t | t in removes - adds && !Beyond(t, |base.entries|, |base.predicates|);
      KnowsAll(new_, neg) && KnowsAll(full, in_) && DecodeAll(new_, neg) == DecodeAll(full, in_)
    ensures var after := before - (neg * before) + (pos - before);
      KnowsAll(new_, after) && DecodeAll(new_, after) ==
          Committed(DecodeAll(base, before), DecodeAll(full, adds), DecodeAll(full, removes))
  {
    hide Tables.Distinct, KnowsAll, DecodeAll, Tables.PrefixOf;
    var in_ := set t | t in removes - adds && !Beyond(t, |base.entries|, |base.predicates|);
    DecodedInLarger(base, full, before);
    DecodedInLarger(base, new_, before);
    DecodedDifference(full, removes, adds);
    DecodedDifference(full, adds, removes);
    OppositesApart(full, new_, adds - removes, in_, pos, neg);
    assert before - (neg * before) + (pos - before) == before - neg + pos;
    DecodedChange(new_, before, neg, pos);
    InParent(base, before);
    assert before - in_ == before - (removes - adds);
    DecodedDifference(full, before, in_);
    DecodedDifference(full, before, removes - adds);
  }

  lemma DecodedDifference(tables: Tables, a: set<Triple>, b: set<Triple>)
    requires tables.Distinct() && KnowsAll(tables, a) && KnowsAll(tables, b)
    ensures KnowsAll(tables, a - b)
    ensures DecodeAll(tables, a - b) == DecodeAll(tables, a) - DecodeAll(tables, b)
  {
    hide Tables.Distinct, Tables.Knows, Decode;
    assert KnowsAll(tables, {});
    DecodedChange(tables, a, b, {});
    assert a - b + {} == a - b;
  }

  lemma OppositesApart(full: Tables, new_: Tables, kept: set<Triple>, gone: set<Triple>, pos: set<Triple>,
      neg: set<Triple>)
    requires full.Distinct() && KnowsAll(full, kept) && KnowsAll(full, gone) && kept !! gone
    requires KnowsAll(new_, pos) && DecodeAll(new_, pos) == DecodeAll(full, kept)
    requires KnowsAll(new_, neg) && DecodeAll(new_, neg) == DecodeAll(full, gone)
    ensures pos !! neg
  {
    hide Tables.Distinct, Tables.Knows, Decode;
    forall t | t in pos && t in neg ensures false {
      assert Decode(new_, t) in DecodeAll(full, kept) && Decode(new_, t) in DecodeAll(full, gone);
      var a :| a in kept && Decode(full, a) == Decode(new_, t);
      var b :| b in gone && Decode(full, b) == Decode(new_, t);
      DecodeInjective(full, a, b);
    }
  }

  lemma InParent(base: Tables, before: set<Triple>)
    requires KnowsAll(base, before)
    ensures forall t :: t in before ==> !Beyond(t, |base.entries|, |base.predicates|)
  {
    forall t | t in before ensures !Beyond(t, |base.entries|, |base.predicates|) {
      assert base.Knows(t);
    }
  }

  /* ---- the entries of the new dictionary ---- */

  lemma KeptIsUsed(base: Tables, full: Tables, kept: set<Triple>, all: seq<Triple>, keep: set<nat>, e: Entry)
    requires base.PrefixOf(full) && full.Distinct() && KnowsAll(full, kept)
    requires UsedAbove(all, keep, |base.entries|, |full.entries|)
    requires forall t :: t in all ==> t in kept || !Beyond(t, |base.entries|, |base.predicates|)
    requires Kept(full.entries, keep, e)
    ensures e !in base.entries && UsesEntry(DecodeAll(full, kept), e)
  {
    hide SomeMentions;
    var id :| id in keep && 1 <= id <= |full.entries| && full.entries[id - 1] == e;
    var t := Mentioner(all, id);
    assert t in kept;
    var st := Decode(full, t);
    assert st in DecodeAll(full, kept) && (st.subj == e || st.obj == e);
  }

  lemma UsedIsKept(base: Tables, full: Tables, kept: set<Triple>, all: seq<Triple>, keep: set<nat>, e: Entry)
    requires base.PrefixOf(full) && full.Distinct() && KnowsAll(full, kept)
    requires UsedAbove(all, keep, |base.entries|, |full.entries|)
    requires forall t :: t in kept ==> t in all
    requires e !in base.entries && UsesEntry(DecodeAll(full, kept), e)
    ensures Kept(full.entries, keep, e)
  {
    hide SomeMentions, Tables.Distinct;
    var st :| st in DecodeAll(full, kept) && (st.subj == e || st.obj == e);
    var t :| t in kept && Decode(full, t) == st;
    assert full.Knows(t);
    var id := if st.subj == e then t.s else t.o;
    MentionedBy(all, t, id);
    assert id in keep;
  }

  /** The new dictionary holds exactly the entries the surviving additions use and the parent
      lacks. */
  lemma CommittedEntries(base: Tables, full: Tables, kept: set<Triple>, all: seq<Triple>, keep: set<nat>, e: Entry)
    requires base.PrefixOf(full) && full.Distinct() && KnowsAll(full, kept)
    requires UsedAbove(all, keep, |base.entries|, |full.entries|)
    requires forall t :: t in kept ==> t in all
    requires forall t :: t in all ==> t in kept || !Beyond(t, |base.entries|, |base.predicates|)
    ensures Kept(full.entries, keep, e) <==> e !in base.entries && UsesEntry(DecodeAll(full, kept), e)
  {
    hide UsedAbove, UsesEntry, Kept, Tables.Distinct, DecodeAll, KnowsAll;
    if Kept(full.entries, keep, e) {
      KeptIsUsed(base, full, kept, all, keep, e);
    }
    if e !in base.entries && UsesEntry(DecodeAll(full, kept), e) {
      UsedIsKept(base, full, kept, all, keep, e);
    }
  }

  lemma Mentioner(all: seq<Triple>, id: nat) returns (t: Triple)
    requires SomeMentions(all, id)
    ensures t in all && Mentions(t, id)
  {
    var i :| 0 <= i < |all| && Mentions(all[i], id);
    t := all[i];
  }

  lemma MentionedBy(all: seq<Triple>, t: Triple, id: nat)
    requires t in all && Mentions(t, id)
    ensures SomeMentions(all, id)
  {
    var i :| 0 <= i < |all| && all[i] == t;
    assert Mentions(all[i], id);
  }

  lemma CommittedPredicates(base: Tables, full: Tables, kept: set<Triple>, all: seq<Triple>, keep: set<nat>, p: Str)
    requires base.PrefixOf(full) && full.Distinct() && KnowsAll(full, kept)
    requires PredicatesUsedAbove(all, keep, |base.predicates|, |full.predicates|)
    requires forall t :: t in kept ==> t in all
    requires forall t :: t in all ==> t in kept || !Beyond(t, |base.entries|, |base.predicates|)
    ensures Kept(full.predicates, keep, p) <==> p !in base.predicates && UsesPredicate(DecodeAll(full, kept), p)
  {
    if Kept(full.predicates, keep, p) {
      var id :| id in keep && 1 <= id <= |full.predicates| && full.predicates[id - 1] == p;
      assert SomePredicate(all, id);
      var i :| 0 <= i < |all| && all[i].p == id;
      var t := all[i];
      assert t in kept;
      var st := Decode(full, t);
      assert st in DecodeAll(full, kept) && st.pred == p;
    }
    if p !in base.predicates && UsesPredicate(DecodeAll(full, kept), p) {
      var st :| st in DecodeAll(full, kept) && st.pred == p;
      var t :| t in kept && Decode(full, t) == st;
      assert full.Knows(t) && t in all;
      var i :| 0 <= i < |all| && all[i] == t;
      assert SomePredicate(all, t.p);
      assert t.p in keep;
    }
  }

  /* ---- applying the changes to the parent ---- */

  ghost function Present(triples: set<Triple>, present: bool): Triple -> bool {
    (t: Triple) => (t in triples) == present
  }

  /** The triples that the parent has, or lacks. */
  method FilterByParent(parent: InternalLayer, ts: seq<Triple>, present: bool) returns (kept: seq<Triple>)
    requires parent.Valid()
    ensures kept == Filter(Present(parent.TripleSet(), present), ts)
  {
    hide InternalLayer.Valid, InternalLayer.TripleSet, Filter;
    ghost var keep := Present(parent.TripleSet(), present);
    kept := [];
    FilterDropsAll(keep, ts[..0]);
    for i := 0 to |ts|
      invariant kept == Filter(keep, ts[..i])
    {
      FilterSnoc(keep, ts, i);
      var found := TripleExists(parent, ts[i].s, ts[i].p, ts[i].o);
      if found == present {
        kept := kept + [ts[i]];
      }
    }
    assert ts[..|ts|] == ts;
  }

  lemma {:induction false} FilterCommutes(a: Triple -> bool, b: Triple -> bool, ts: seq<Triple>)
    ensures Filter(a, Filter(b, ts)) == Filter(b, Filter(a, ts))
  {
    if ts != [] {
      var rest := ts[1..];
      FilterCommutes(a, b, rest);
      FilterAppend(a, if b(ts[0]) then [ts[0]] else [], Filter(b, rest));
      FilterAppend(b, if a(ts[0]) then [ts[0]] else [], Filter(a, rest));
      FilterOne(a, ts[0]);
      FilterOne(b, ts[0]);
    }
  }

  lemma FilterOne(a: Triple -> bool, t: Triple)
    ensures Filter(a, [t]) == (if a(t) then [t] else []) && Filter(a, []) == []
  {
    assert [t][1..] == [];
  }

  /** Dropping triples from an ordered batch. */
  lemma FilteredBatch(ts: seq<Triple>, triples: set<Triple>, present: bool)
    requires Increasing(BySubject, Filter(Nonzero, ts))
    ensures var kept := Filter(Present(triples, present), ts);
      && Increasing(BySubject, Filter(Nonzero, kept))
      && Live(kept) == set t | t in Live(ts) && (t in triples) == present
  {
    hide Increasing, Filter;
    var keep := Present(triples, present);
    FilterCommutes(Nonzero, keep, ts);
    FilterIncreases(BySubject, keep, Filter(Nonzero, ts));
    forall t ensures t in Live(Filter(keep, ts)) <==> t in Live(ts) && (t in triples) == present {
      FilterElement(keep, Filter(Nonzero, ts), t);
    }
  }

  /** `ChildLayerFileBuilder`'s second phase: additions the parent has and removals it lacks
      are dropped. */
  method BuildChild(name: Name, parent: InternalLayer, d: Dictionary, pos: seq<Triple>,
      neg: seq<Triple>) returns (layer: InternalLayer)
    requires parent.Valid() && Increasing(BySubject, Filter(Nonzero, pos)) &&
      Increasing(BySubject, Filter(Nonzero, neg))
    ensures layer.Child? && layer.name == name && layer.parent == parent && layer.dict == d && layer.Valid() &&
      AsWritten(layer)
    ensures layer.TripleSet() == parent.TripleSet() - (Live(neg) * parent.TripleSet()) + (Live(pos) - parent.TripleSet())
  {
    hide InternalLayer.Valid, InternalLayer.TripleSet, Filter, Increasing;
    var adds := FilterByParent(parent, pos, false);
    var rems := FilterByParent(parent, neg, true);
    FilteredBatch(pos, parent.TripleSet(), false);
    FilteredBatch(neg, parent.TripleSet(), true);
    layer := BuildChildLayer(name, parent, d, adds, rems);
  }

  /* ---- the committed layer ---- */

  /** What committing `adds` and `removes` on top of `parent` must give: the contents asked for,
      and a dictionary of exactly the new strings in use, under sorted ids. */
  ghost predicate CommitOf(layer: InternalLayer, name: Name, parent: Option<InternalLayer>, adds: set<StringTriple>,
      removes: set<StringTriple>) {
    && GroundedParent(parent) && Grounded(layer)
    && !layer.Rollup? && layer.LayerName() == name && layer.ImmediateParent() == parent
    && Meaning(layer) == Committed(BaseMeaning(parent), adds, removes)
    && layer.Dict().nodeValueIds == IdMap(None) && layer.Dict().predicateIds == IdMap(None)
    && (forall e :: e in layer.Dict().Entries() <==> e !in BaseTables(parent).entries && UsesEntry(adds - removes, e))
    && (forall p :: p in layer.Dict().predicates <==>
      p !in BaseTables(parent).predicates && UsesPredicate(adds - removes, p))
  }

  lemma CommittedFiles(layer: InternalLayer, name: Name, parent: Option<InternalLayer>, adds: set<StringTriple>,
      removes: set<StringTriple>)
    requires CommitOf(layer, name, parent, adds, removes) && AsWritten(layer)
    ensures parent.None? ==> BaseFiles(layer)
  {
    hide Grounded, GroundedParent, Meaning, BaseMeaning, BaseTables;
  }

  /** The tables of a layer put on top of its parent. */
  lemma TablesOnTop(layer: InternalLayer, parent: Option<InternalLayer>)
    requires GroundedParent(parent) && layer.ImmediateParent() == parent && layer.Dict().Valid()
    ensures DictsValid(layer)
    ensures TablesOf(layer) == Tables(BaseTables(parent).entries + layer.Dict().Outer(),
      BaseTables(parent).predicates + layer.Dict().OuterPredicates())
  {
    hide InternalLayer.Valid, InternalLayer.TripleSet, Dictionary.Valid, Dictionary.Outer, Dictionary.OuterPredicates;
  }

  lemma TablesGround(layer: InternalLayer, new_: Tables)
    requires layer.Valid() && DictsValid(layer) && TablesOf(layer) == new_ && new_.Distinct() &&
      KnowsAll(new_, layer.TripleSet())
    ensures Grounded(layer) && Meaning(layer) == DecodeAll(new_, layer.TripleSet())
  {
    hide InternalLayer.Valid, InternalLayer.TripleSet, Table, PredicateTable;
  }

  /** Applies renumbered changes to the parent, or starts a base layer. */
  method BuildLayer(name: Name, parent: Option<InternalLayer>, d: Dictionary, pos: seq<Triple>,
      neg: seq<Triple>) returns (layer: InternalLayer)
    requires GroundedParent(parent) && Increasing(BySubject, Filter(Nonzero, pos)) &&
      Increasing(BySubject, Filter(Nonzero, neg))
    ensures !layer.Rollup? && layer.LayerName() == name && layer.ImmediateParent() == parent && layer.Dict() == d &&
      layer.Valid() && AsWritten(layer)
    ensures layer.TripleSet() == BaseTriples(parent) - (Live(neg) * BaseTriples(parent)) + (Live(pos) - BaseTriples(parent))
  {
    hide InternalLayer.Valid, InternalLayer.TripleSet, Filter, Increasing, Named, KnowsAll, TablesOf;
    match parent {
      case Some(p) =>
        layer := BuildChild(name, p, d, pos, neg);
      case None =>
        layer := BuildBaseLayer(name, d, pos);
    }
  }

  lemma ParentOffsets(parent: Option<InternalLayer>)
    requires GroundedParent(parent)
    ensures |BaseTables(parent).entries| == if parent.None? then 0 else NodeAndValueCount(parent.value)
    ensures |BaseTables(parent).predicates| == if parent.None? then 0 else PredicateCount(parent.value)
  {
    hide InternalLayer.Valid, InternalLayer.TripleSet, NodeAndValueCount, PredicateCount, Table, PredicateTable;
  }

  lemma KnownAreReal(full: Tables, ts: seq<Triple>)
    requires KnowsAll(full, Elements(ts))
    ensures AllReal(ts)
  {
    forall i | 0 <= i < |ts| ensures ts[i].IsReal() {
      assert ts[i] in Elements(ts);
    }
  }

  lemma SurvivorsKnown(full: Tables, idAdditions: seq<Triple>, idRemovals: seq<Triple>, adds: seq<Triple>,
      rems: seq<Triple>, base: nat, basePredicates: nat)
    requires KnowsAll(full, Elements(idAdditions)) && KnowsAll(full, Elements(idRemovals))
    requires Live(adds) == Elements(idAdditions) - Elements(idRemovals)
    requires Live(rems) == set t | t in Elements(idRemovals) - Elements(idAdditions) && !Beyond(t, base, basePredicates)
    requires forall t :: t in adds ==> t == ZERO || t in Live(adds)
    requires forall t :: t in rems ==> t == ZERO || t in Live(rems)
    ensures KnowsAll(full, Live(adds)) && KnowsAll(full, Live(rems))
    ensures Fits(adds + rems, |full.entries| + 1, |full.predicates| + 1)
    ensures forall t :: t in adds + rems ==> t in Live(adds) || !Beyond(t, base, basePredicates)
    ensures forall t :: t in Live(adds) ==> t in adds + rems
  {
    hide Live, Elements;
    var all := adds + rems;
    forall i | 0 <= i < |all| ensures all[i].s < |full.entries| + 1 && all[i].o < |full.entries| + 1 &&
      all[i].p < |full.predicates| + 1 {
      assert all[i] in adds || all[i] in rems;
      assert all[i] == ZERO || full.Knows(all[i]);
    }
    forall t | t in Live(adds) ensures t in adds + rems {
      LiveAre(adds, t);
    }
  }

  lemma UsedIsAbove(full: Tables, ts: seq<Triple>, keep: set<nat>, keepPredicates: set<nat>, base: nat,
      basePredicates: nat)
    requires UsedAbove(ts, keep, base, |full.entries|) &&
      PredicatesUsedAbove(ts, keepPredicates, basePredicates, |full.predicates|)
    ensures Above(keep, base, |full.entries|) && Above(keepPredicates, basePredicates, |full.predicates|)
  {
    hide SomeMentions, SomePredicate;
  }

  lemma Compacting(full: Tables, new_: Tables, d: Dictionary, entries: Renumbering, predicates: Renumbering,
      keep: set<nat>, keepPredicates: set<nat>)
    requires Compacts(full, new_, d, entries, predicates, keep, keepPredicates)
    ensures d.Valid() && Converts(full, new_, entries, predicates, keep, keepPredicates) && new_.Distinct()
    ensures d.nodeValueIds == IdMap(None) && d.predicateIds == IdMap(None)
    ensures d.Outer() == d.Entries() && d.OuterPredicates() == d.predicates
    ensures entries.base <= |full.entries| && predicates.base <= |full.predicates|
    ensures new_ == Tables(full.entries[..entries.base] + d.Entries(),
      full.predicates[..predicates.base] + d.predicates)
  {
    hide Converts, Dictionary.Valid, Tables.Distinct, Dictionary.Outer, Dictionary.OuterPredicates, Kept;
  }

  /** Everything in place, the layer is what was asked for. */
  lemma FinishCommit(layer: InternalLayer, name: Name, parent: Option<InternalLayer>, full: Tables, new_: Tables,
      d: Dictionary,
      entryIds: Renumbering, predicateIds: Renumbering, keep: set<nat>, keepPredicates: set<nat>,
      idAdditions: seq<Triple>, idRemovals: seq<Triple>, adds: seq<Triple>, rems: seq<Triple>, pos: seq<Triple>,
          neg: seq<Triple>)
    requires GroundedParent(parent)
    requires !layer.Rollup? && layer.LayerName() == name && layer.ImmediateParent() == parent && layer.Dict() == d &&
      layer.Valid()
    requires layer.TripleSet() == BaseTriples(parent) - (Live(neg) * BaseTriples(parent)) + (Live(pos) - BaseTriples(parent))
    requires BaseTables(parent).PrefixOf(full) && full.Distinct()
    requires entryIds.base == |BaseTables(parent).entries| && predicateIds.base == |BaseTables(parent).predicates|
    requires Compacts(full, new_, d, entryIds, predicateIds, keep, keepPredicates)
    requires KnowsAll(full, Elements(idAdditions)) && KnowsAll(full, Elements(idRemovals))
    requires Live(adds) == Elements(idAdditions) - Elements(idRemovals)
    requires Live(rems) == set t | t in Elements(idRemovals) - Elements(idAdditions) &&
      !Beyond(t, entryIds.base, predicateIds.base)
    requires KnowsAll(full, Live(adds)) && KnowsAll(new_, Live(pos)) &&
      DecodeAll(new_, Live(pos)) == DecodeAll(full, Live(adds))
    requires KnowsAll(full, Live(rems)) && KnowsAll(new_, Live(neg)) &&
      DecodeAll(new_, Live(neg)) == DecodeAll(full, Live(rems))
    requires UsedAbove(adds + rems, keep, entryIds.base, |full.entries|) &&
      PredicatesUsedAbove(adds + rems, keepPredicates, predicateIds.base, |full.predicates|)
    requires forall t :: t in adds + rems ==> t in Live(adds) || !Beyond(t, entryIds.base, predicateIds.base)
    requires forall t :: t in Live(adds) ==> t in adds + rems
    ensures CommitOf(layer, name, parent, DecodeAll(full, Elements(idAdditions)), DecodeAll(full, Elements(idRemovals)))
  {
    hide Grounded, GroundedParent, Live, KnowsAll, DecodeAll, Compacts, Converts, BaseTables, BaseTriples,
      BaseMeaning, UsedAbove, PredicatesUsedAbove, Tables.Distinct, Elements, Committed, InternalLayer.Valid,
      InternalLayer.TripleSet, TablesOf, Meaning, Dictionary.Outer, Dictionary.OuterPredicates, Dictionary.Valid,
      DictsValid, UsesEntry, UsesPredicate, Kept;
    Compacting(full, new_, d, entryIds, predicateIds, keep, keepPredicates);
    BaseFacts(parent);
    ghost var base := BaseTables(parent);
    assert full.entries[..entryIds.base] == base.entries && full.predicates[..predicateIds.base] == base.predicates;
    TablesOnTop(layer, parent);
    CommittedStrings(base, full, new_, BaseTriples(parent), Elements(idAdditions), Elements(idRemovals), Live(pos),
        Live(neg));
    TablesGround(layer, new_);
    DecodedDifference(full, Elements(idAdditions), Elements(idRemovals));
    forall e ensures e in d.Entries() <==> e !in base.entries && UsesEntry(DecodeAll(full, Live(adds)), e) {
      KeptEntries(full, new_, d, entryIds, predicateIds, keep, keepPredicates, e);
      CommittedEntries(base, full, Live(adds), adds + rems, keep, e);
    }
    forall p ensures p in d.predicates <==> p !in base.predicates && UsesPredicate(DecodeAll(full, Live(adds)), p) {
      KeptPredicates(full, new_, d, entryIds, predicateIds, keep, keepPredicates, p);
      CommittedPredicates(base, full, Live(adds), adds + rems, keepPredicates, p);
    }
  }

  lemma KeptEntries(full: Tables, new_: Tables, d: Dictionary, entries: Renumbering, predicates: Renumbering,
      keep: set<nat>, keepPredicates: set<nat>, e: Entry)
    requires Compacts(full, new_, d, entries, predicates, keep, keepPredicates)
    ensures e in d.Entries() <==> Kept(full.entries, keep, e)
  {
    hide Converts, Dictionary.Valid, Tables.Distinct, Dictionary.Outer, Dictionary.OuterPredicates, Kept;
  }

  lemma KeptPredicates(full: Tables, new_: Tables, d: Dictionary, entries: Renumbering, predicates: Renumbering,
      keep: set<nat>, keepPredicates: set<nat>, p: Str)
    requires Compacts(full, new_, d, entries, predicates, keep, keepPredicates)
    ensures p in d.predicates <==> Kept(full.predicates, keepPredicates, p)
  {
    hide Converts, Dictionary.Valid, Tables.Distinct, Dictionary.Outer, Dictionary.OuterPredicates, Kept;
  }

  lemma NamedAt<K(!new)>(table: seq<K>, m: map<K, nat>, e: K)
    requires NamesBy(table, m) && e in m
    ensures 1 <= m[e] <= |table| && table[m[e] - 1] == e
  {
  }

  lemma ParentTables(parent: Option<InternalLayer>)
    requires GroundedParent(parent) && parent.Some?
    ensures DictsValid(parent.value) && BaseTables(parent) == Tables(Table(parent.value), PredicateTable(parent.value))
  {
    hide InternalLayer.Valid, InternalLayer.TripleSet;
  }

  lemma NoParentTables(parent: Option<InternalLayer>)
    requires GroundedParent(parent)
    ensures parent.None? ==> BaseTables(parent) == Tables([], [])
  {
    hide Grounded;
  }

  lemma OneMoreEntry(before: Tables, after: Tables, e: Entry)
    requires before.Distinct() && e !in before.entries && after == Tables(before.entries + [e], before.predicates)
    ensures after.Distinct() && before.PrefixOf(after)
  {
  }

  lemma OneMorePredicate(before: Tables, after: Tables, p: Str)
    requires before.Distinct() && p !in before.predicates && after == Tables(before.entries, before.predicates + [p])
    ensures after.Distinct() && before.PrefixOf(after)
  {
  }

  lemma MoreNames<K(!new)>(before: seq<K>, after: seq<K>, m: map<K, nat>, e: K, id: nat)
    requires NamesBy(before, m) && before <= after && 1 <= id <= |after| && after[id - 1] == e
    ensures NamesBy(after, m[e := id])
  {
  }

  lemma MoreKnown(before: Tables, after: Tables, ts: set<Triple>)
    requires KnowsAll(before, ts) && before.PrefixOf(after)
    ensures KnowsAll(after, ts)
  {
    DecodedInLarger(before, after, ts);
  }

  lemma OneMoreTriple(tables: Tables, ts: seq<Triple>, t: Triple)
    requires KnowsAll(tables, Elements(ts)) && tables.Knows(t)
    ensures KnowsAll(tables, Elements(ts + [t])) && DecodeAll(tables, Elements(ts + [t])) ==
      DecodeAll(tables, Elements(ts)) + {Decode(tables, t)}
  {
    hide Tables.Knows, Decode;
    assert Elements(ts + [t]) == Elements(ts) + {t};
  }
}
