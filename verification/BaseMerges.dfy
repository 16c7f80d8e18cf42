/** Merging base layers: their dictionaries are merged without repetition, their triples mapped to
    the merged ids, merged in order and written once each. */
module BaseMerges {
  import opened Sorting
  import opened Triples
  import opened TripleIndexes
  import opened TripleStreams
  import opened ObjectIndexes
  import opened Dictionaries
  import opened InternalLayers
  import opened IdTranslation
  import opened StringTriples
  import opened LayerFileBuilders
  import Rollups
  import opened Compaction

  /* ---- merging dictionaries ---- */

  /** `map_[i]` is where entry `i` of a dictionary went. */
  ghost predicate MapsInto<K>(dict: seq<K>, merged: seq<K>, map_: seq<nat>) {
    |map_| == |dict| && forall i :: 0 <= i < |dict| ==> map_[i] < |merged| && merged[map_[i]] == dict[i]
  }

  ghost predicate AllMap<K>(dicts: seq<seq<K>>, merged: seq<K>, maps: seq<seq<nat>>) {
    |maps| == |dicts| && forall d :: 0 <= d < |dicts| ==> MapsInto(dicts[d], merged, maps[d])
  }

  /** Merges ascending dictionaries, each entry once, and says where every entry went. */
  method MergeDicts<K(==,!new)>(le: (K, K) -> bool, dicts: seq<seq<K>>) returns (merged: seq<K>, maps: seq<seq<nat>>)
    requires TotalOrder(le) && forall d :: 0 <= d < |dicts| ==> Ascending(le, dicts[d])
    ensures Ascending(le, merged) && AllMap(dicts, merged, maps)
    ensures forall k :: k in merged <==> exists d :: 0 <= d < |dicts| && k in dicts[d]
  {
    hide TotalOrder, Ascending, AscendingOf;
    var all: seq<K> := [];
    for d := 0 to |dicts|
      invariant forall k :: k in all <==> exists e :: 0 <= e < d && k in dicts[e]
    {
      all := all + dicts[d];
    }
    merged := AscendingOf(le, all);
    forall k ensures k in merged <==> k in all {
      assert k in merged <==> k in Elements(merged);
      assert k in all <==> k in Elements(all);
    }
    maps := [];
    for d := 0 to |dicts|
      invariant |maps| == d && forall e :: 0 <= e < d ==> MapsInto(dicts[e], merged, maps[e])
    {
      var positions: seq<nat> := [];
      for i := 0 to |dicts[d]|
        invariant |positions| == i && forall j :: 0 <= j < i ==>
          positions[j] < |merged| && merged[positions[j]] == dicts[d][j]
      {
        assert dicts[d][i] in dicts[d] && dicts[d][i] in all;
        var found := Find(merged, dicts[d][i]);
        positions := positions + [found.value - 1];
      }
      maps := maps + [positions];
    }
  }

  lemma MapIncreases<K(!new)>(le: (K, K) -> bool, dict: seq<K>, merged: seq<K>, map_: seq<nat>, i: nat, j: nat)
    requires TotalOrder(le) && Ascending(le, dict) && Ascending(le, merged) && MapsInto(dict, merged, map_) &&
      i < j < |dict|
    ensures map_[i] < map_[j]
  {
    assert le(dict[i], dict[j]) && dict[i] != dict[j];
    assert merged[map_[i]] == dict[i] && merged[map_[j]] == dict[j];
  }

  /* ---- mapping triples ---- */

  /** The three maps of one input; objects beyond its nodes are values, which come after all
      merged nodes. */
  datatype TripleMap = TripleMap(nodes: seq<nat>, predicates: seq<nat>, values: seq<nat>, numNodes: nat)

  /** The subject is a node, and everything is known. */
  predicate Mappable(m: TripleMap, t: Triple) {
    1 <= t.s <= |m.nodes| && 1 <= t.p <= |m.predicates| && 1 <= t.o <= |m.nodes| + |m.values|
  }

  function MapTriple(m: TripleMap, t: Triple): Triple
    requires Mappable(m, t)
  {
    Triple(m.nodes[t.s - 1] + 1, m.predicates[t.p - 1] + 1,
      if t.o - 1 < |m.nodes| then m.nodes[t.o - 1] + 1 else m.values[t.o - 1 - |m.nodes|] + m.numNodes + 1)
  }

  ghost predicate Rising(map_: seq<nat>) {
    forall i, j :: 0 <= i < j < |map_| ==> map_[i] < map_[j]
  }

  /** Mapping keeps the order of triples. */
  lemma MapTripleMonotone(m: TripleMap, a: Triple, b: Triple)
    requires Rising(m.nodes) && Rising(m.predicates) && Rising(m.values) && forall i :: 0 <= i < |m.nodes| ==>
      m.nodes[i] < m.numNodes
    requires Mappable(m, a) && Mappable(m, b)
    ensures Before(BySubject, a, b) <==> Before(BySubject, MapTriple(m, a), MapTriple(m, b))
  {
  }

  lemma MapsRise<K(!new)>(le: (K, K) -> bool, dict: seq<K>, merged: seq<K>, map_: seq<nat>)
    requires TotalOrder(le) && Ascending(le, dict) && Ascending(le, merged) && MapsInto(dict, merged, map_)
    ensures Rising(map_)
  {
    hide TotalOrder, Ascending;
    forall i, j | 0 <= i < j < |map_| ensures map_[i] < map_[j] {
      MapIncreases(le, dict, merged, map_, i, j);
    }
  }

  /* ---- one input ---- */

  /** A base layer without permuted ids. */
  ghost predicate Mergeable(l: InternalLayer) {
    && l.Base? && Grounded(l) && l.triples.x.subjects.None?
    && l.dict.nodeValueIds == IdMap(None) && l.dict.predicateIds == IdMap(None)
  }

  /** Every subject id is that of a node. The map of nodes has no place for another one. */
  ghost predicate NodeSubjects(l: InternalLayer) {
    l.Base? && l.Valid() && forall t :: t in l.TripleSet() ==> t.s <= |l.dict.nodes|
  }

  /** The tables of the merged layer. */
  function MergedTables(nodes: seq<Str>, predicates: seq<Str>, values: seq<Dictionaries.Entry>): Tables {
    Tables(Dictionary(nodes, predicates, values, IdMap(None), IdMap(None)).Entries(), predicates)
  }

  lemma MergeableParts(l: InternalLayer)
    requires Mergeable(l)
    ensures l.Base? && l.dict.Valid() && l.triples.x.Coherent() && l.triples.x.subjects.None? && DictsValid(l)
    ensures Ascending(StrOrdering(), l.dict.nodes) && Ascending(StrOrdering(), l.dict.predicates) &&
      Ascending(EntryOrdering(), l.dict.values)
    ensures l.Valid() && l.TripleSet() == Elements(l.triples.x.Listing()) &&
      TablesOf(l) == MergedTables(l.dict.nodes, l.dict.predicates, l.dict.values)
    ensures TablesOf(l).Distinct() && KnowsAll(TablesOf(l), Elements(l.triples.x.Listing())) &&
      Meaning(l) == DecodeAll(TablesOf(l), Elements(l.triples.x.Listing()))
    ensures forall t :: t in l.triples.x.Listing() ==> TablesOf(l).Knows(t)
  {
    hide TripleIndex.Coherent, TripleIndex.Listing, InternalLayer.TripleSet, IdMap.Permutes, Tables.Knows, Decode;
    GroundedBase(l);
    BaseLayerMeans(l);
    Rollups.BaseTables(l);
    UnmappedTables(l.dict);
    forall t | t in l.triples.x.Listing() ensures TablesOf(l).Knows(t) {
      assert t in Elements(l.triples.x.Listing());
    }
  }

  lemma GroundedBase(l: InternalLayer)
    requires l.Base? && Grounded(l)
    ensures l.dict.Valid() && l.triples.Coherent() && l.triples.x.Coherent() && l.Valid() && DictsValid(l) &&
      TablesOf(l).Distinct()
  {
    hide ObjectIndex.Shape, TripleIndex.Coherent, Ascending, Dictionary.Outer, Dictionary.OuterPredicates;
    assert l.Indexes()[0].Coherent();
  }

  lemma UnmappedTables(d: Dictionary)
    requires d.Valid() && d.nodeValueIds == IdMap(None) && d.predicateIds == IdMap(None)
    ensures d.Outer() == d.Entries() == MergedTables(d.nodes, d.predicates, d.values).entries &&
      d.OuterPredicates() == d.predicates
  {
    hide Ascending, IdMap.Permutes, Permuted, Dictionary.Entries;
    UnmappedOuter(d.Entries());
    UnmappedOuter(d.predicates);
    SameEntries(d, Dictionary(d.nodes, d.predicates, d.values, IdMap(None), IdMap(None)));
  }

  lemma SameEntries(a: Dictionary, b: Dictionary)
    requires a.nodes == b.nodes && a.values == b.values
    ensures a.Entries() == b.Entries()
  {
  }

  lemma EntryOf(nodes: seq<Str>, predicates: seq<Str>, values: seq<Dictionaries.Entry>, i: nat)
    requires i < |nodes| + |values|
    ensures |MergedTables(nodes, predicates, values).entries| == |nodes| + |values|
    ensures MergedTables(nodes, predicates, values).entries[i] == if i < |nodes| then Node(nodes[i])
      else values[i - |nodes|]
  {
    var d := Dictionary(nodes, predicates, values, IdMap(None), IdMap(None));
    if i >= |nodes| {
      assert d.Entries()[|nodes| + (i - |nodes|)] == values[i - |nodes|];
    }
  }

  /** What the maps of one input have to be. */
  ghost predicate MapsOf(d: Dictionary, nodes: seq<Str>, predicates: seq<Str>, values: seq<Dictionaries.Entry>,
      m: TripleMap) {
    MapsInto(d.nodes, nodes, m.nodes) && MapsInto(d.predicates, predicates, m.predicates) &&
        MapsInto(d.values, values, m.values) && m.numNodes == |nodes|
  }

  /** A mapped triple says what the original said. */
  lemma MappedSaysTheSame(d: Dictionary, nodes: seq<Str>, predicates: seq<Str>, values: seq<Dictionaries.Entry>,
      m: TripleMap, t: Triple)
    requires MapsOf(d, nodes, predicates, values, m)
    requires MergedTables(d.nodes, d.predicates, d.values).Knows(t) && t.s <= |d.nodes|
    ensures Mappable(m, t) && MergedTables(nodes, predicates, values).Knows(MapTriple(m, t))
    ensures Decode(MergedTables(nodes, predicates, values), MapTriple(m, t)) ==
      Decode(MergedTables(d.nodes, d.predicates, d.values), t)
  {
    hide MergedTables;
    TablePredicates(d.nodes, d.predicates, d.values);
    TablePredicates(nodes, predicates, values);
    EntryOf(d.nodes, d.predicates, d.values, t.s - 1);
    EntryOf(d.nodes, d.predicates, d.values, t.o - 1);
    var u := MapTriple(m, t);
    EntryOf(nodes, predicates, values, u.s - 1);
    EntryOf(nodes, predicates, values, u.o - 1);
  }

  lemma TablePredicates(nodes: seq<Str>, predicates: seq<Str>, values: seq<Dictionaries.Entry>)
    ensures MergedTables(nodes, predicates, values).predicates == predicates
    ensures |MergedTables(nodes, predicates, values).entries| == |nodes| + |values|
  {
  }

  /** The mapped triples of one input: in order, known, and with the same meaning. */
  ghost predicate MappedRun(tables: Tables, run: seq<Triple>, meaning: set<StringTriple>) {
    Sorted(SubjectOrder(), run) && KnowsAll(tables, Elements(run)) && DecodeAll(tables, Elements(run)) == meaning
  }

  lemma RunOfInput(l: InternalLayer, nodes: seq<Str>, predicates: seq<Str>, values: seq<Dictionaries.Entry>,
      m: TripleMap, run: seq<Triple>)
    requires Mergeable(l) && NodeSubjects(l) && Ascending(StrOrdering(), nodes) &&
      Ascending(StrOrdering(), predicates) && Ascending(EntryOrdering(), values)
    requires MapsOf(l.dict, nodes, predicates, values, m) && l.triples.x.Shape()
    requires |run| == |l.triples.x.Listing()| && forall i :: 0 <= i < |run| ==>
      Mappable(m, l.triples.x.Listing()[i]) && run[i] == MapTriple(m, l.triples.x.Listing()[i])
    ensures MappedRun(MergedTables(nodes, predicates, values), run, Meaning(l))
  {
    hide TripleIndex.Coherent, TripleIndex.Listing, Ascending, TotalOrder, Mergeable, Rising, Before, MergedTables,
      MapTriple, Mappable, Meaning, Decode, Tables.Knows, Tables.Distinct;
    MergeableFields(l);
    MergeableParts(l);
    var ts, tables, own := l.triples.x.Listing(), MergedTables(nodes, predicates, values), TablesOf(l);
    MapsRise(StrOrdering(), l.dict.nodes, nodes, m.nodes);
    MapsRise(StrOrdering(), l.dict.predicates, predicates, m.predicates);
    MapsRise(EntryOrdering(), l.dict.values, values, m.values);
    ListingIncreases(l.triples.x);
    forall i, j | 0 <= i < j < |run| ensures SubjectOrder()(run[i], run[j]) {
      MapTripleMonotone(m, ts[i], ts[j]);
    }
    forall i | 0 <= i < |run| ensures tables.Knows(run[i]) && Decode(tables, run[i]) == Decode(own, ts[i]) {
      assert ts[i] in ts;
      MappedSaysTheSame(l.dict, nodes, predicates, values, m, ts[i]);
    }
    SameDecoded(own, tables, ts, run);
  }

  lemma SameDecoded(own: Tables, tables: Tables, ts: seq<Triple>, run: seq<Triple>)
    requires |run| == |ts| && KnowsAll(own, Elements(ts))
    requires forall i :: 0 <= i < |run| ==>
      own.Knows(ts[i]) && tables.Knows(run[i]) && Decode(tables, run[i]) == Decode(own, ts[i])
    ensures KnowsAll(tables, Elements(run)) && DecodeAll(tables, Elements(run)) == DecodeAll(own, Elements(ts))
  {
    hide Tables.Knows, Decode;
    forall u | u in Elements(run) ensures tables.Knows(u) && Decode(tables, u) in DecodeAll(own, Elements(ts)) {
      var i :| 0 <= i < |run| && run[i] == u;
      assert ts[i] in Elements(ts);
    }
    forall t | t in Elements(ts) ensures Decode(own, t) in DecodeAll(tables, Elements(run)) {
      var i :| 0 <= i < |ts| && ts[i] == t;
      assert run[i] in Elements(run);
    }
  }

  /** Reads one input's triples and maps them. A subject beyond the nodes stops the merge: the source
      panics on it. */
  method MapInput(l: InternalLayer, m: TripleMap, ghost nodes: seq<Str>, ghost predicates: seq<Str>,
      ghost values: seq<Dictionaries.Entry>) returns (run: Option<seq<Triple>>)
    requires Mergeable(l) && Ascending(StrOrdering(), nodes) && Ascending(StrOrdering(), predicates) &&
      Ascending(EntryOrdering(), values)
    requires MapsOf(l.dict, nodes, predicates, values, m)
    ensures run.Some? <==> NodeSubjects(l)
    ensures run.Some? ==> MappedRun(MergedTables(nodes, predicates, values), run.value, Meaning(l))
  {
    hide TripleIndex.Coherent, TripleIndex.Listing, TripleIndex.Shape, Ascending, TotalOrder, Mergeable, MergedTables,
      MapTriple, Mappable, Meaning, MappedRun, MapsOf, Tables.Knows, KnowsAll, DecodeAll, Tables.Distinct, TablesOf,
      DictsValid, InternalLayer.Valid, InternalLayer.TripleSet, Dictionary.Valid;
    MergeableFields(l);
    MergeableParts(l);
    CoherentShape(l.triples.x);
    var ts := CollectStream(l.triples.x);
    var mapped := [];
    for i := 0 to |ts|
      invariant |mapped| == i && forall j :: 0 <= j < i ==>
        ts[j].s <= |l.dict.nodes| && Mappable(m, ts[j]) && mapped[j] == MapTriple(m, ts[j])
    {
      assert ts[i] in ts && ts[i] in Elements(ts);
      if ts[i].s > |l.dict.nodes| {
        return None;
      }
      MappedSaysTheSame(l.dict, nodes, predicates, values, m, ts[i]);
      mapped := mapped + [MapTriple(m, ts[i])];
    }
    RunOfInput(l, nodes, predicates, values, m, mapped);
    run := Some(mapped);
  }

  lemma MergeableFields(l: InternalLayer)
    requires Mergeable(l)
    ensures l.Base?
  {
  }

  /* ---- the merge ---- */

  /** Writes each triple of an ordered stream once. */
  method DropRepeats(ts: seq<Triple>) returns (out: seq<Triple>)
    ensures out == Dedup(ts)
  {
    out := [];
    var last: Option<Triple> := None;
    for i := 0 to |ts|
      invariant out == Dedup(ts[..i]) && last == if i == 0 then None else Some(ts[i - 1])
    {
      DedupNext(ts[..i], ts[i]);
      assert ts[..i + 1] == ts[..i] + [ts[i]];
      if Some(ts[i]) == last {
        continue;
      }
      last := Some(ts[i]);
      out := out + [ts[i]];
    }
    assert ts[..|ts|] == ts;
  }

  lemma {:induction false} DedupNext(s: seq<Triple>, t: Triple)
    ensures Dedup(s + [t]) == if s != [] && s[|s| - 1] == t then Dedup(s) else Dedup(s) + [t]
  {
    if s == [] {
    } else if |s| == 1 {
      assert (s + [t])[1..] == [t];
    } else {
      assert (s + [t])[1..] == s[1..] + [t];
      DedupNext(s[1..], t);
    }
  }

  /** What the inputs say together. */
  ghost predicate UnionOf(meaning: set<StringTriple>, inputs: seq<InternalLayer>) {
    && (forall i :: 0 <= i < |inputs| ==> Grounded(inputs[i]))
    && forall st :: st in meaning <==> exists i :: 0 <= i < |inputs| && st in Meaning(inputs[i])
  }

  ghost predicate AllRuns(tables: Tables, runs: seq<seq<Triple>>, inputs: seq<InternalLayer>) {
    && |runs| == |inputs| && forall i :: 0 <= i < |runs| ==>
      Grounded(inputs[i]) && MappedRun(tables, runs[i], Meaning(inputs[i]))
  }

  lemma RunsTogether(tables: Tables, runs: seq<seq<Triple>>, inputs: seq<InternalLayer>, merged: seq<Triple>)
    requires AllRuns(tables, runs, inputs) && multiset(merged) == Bag(runs)
    ensures KnowsAll(tables, Elements(merged)) && UnionOf(DecodeAll(tables, Elements(merged)), inputs)
  {
    hide Grounded, Meaning, Tables.Knows, Decode, Sorted, Bag;
    forall t | t in Elements(merged)
      ensures tables.Knows(t) && exists i :: 0 <= i < |inputs| && Decode(tables, t) in Meaning(inputs[i])
    {
      assert t in multiset(merged);
      var i := BagElement(runs, t);
      assert MappedRun(tables, runs[i], Meaning(inputs[i]));
      assert t in Elements(runs[i]);
    }
    forall i, st | 0 <= i < |inputs| && st in Meaning(inputs[i]) ensures st in DecodeAll(tables, Elements(merged)) {
      assert MappedRun(tables, runs[i], Meaning(inputs[i]));
      var t :| t in Elements(runs[i]) && Decode(tables, t) == st;
      InBag(runs, i, t);
      assert t in multiset(merged);
    }
  }

  lemma {:induction false} InBag<T>(runs: seq<seq<T>>, i: nat, t: T)
    requires i < |runs| && t in runs[i]
    ensures t in Bag(runs)
  {
    if i > 0 {
      assert runs[1..][i - 1] == runs[i];
      InBag(runs[1..], i - 1, t);
    }
  }

  lemma RunsSorted(tables: Tables, runs: seq<seq<Triple>>, inputs: seq<InternalLayer>)
    requires AllRuns(tables, runs, inputs)
    ensures AllSorted(SubjectOrder(), runs)
  {
    hide Grounded, Meaning, KnowsAll, DecodeAll, Sorted;
    forall i | 0 <= i < |runs| ensures Sorted(SubjectOrder(), runs[i]) {
      assert MappedRun(tables, runs[i], Meaning(inputs[i]));
    }
  }

  function NodeDicts(inputs: seq<InternalLayer>): (r: seq<seq<Str>>)
    ensures |r| == |inputs| && forall i :: 0 <= i < |r| ==> r[i] == inputs[i].Dict().nodes
  {
    seq(|inputs|, i requires 0 <= i < |inputs| => inputs[i].Dict().nodes)
  }

  function PredicateDicts(inputs: seq<InternalLayer>): (r: seq<seq<Str>>)
    ensures |r| == |inputs| && forall i :: 0 <= i < |r| ==> r[i] == inputs[i].Dict().predicates
  {
    seq(|inputs|, i requires 0 <= i < |inputs| => inputs[i].Dict().predicates)
  }

  function ValueDicts(inputs: seq<InternalLayer>): (r: seq<seq<Dictionaries.Entry>>)
    ensures |r| == |inputs| && forall i :: 0 <= i < |r| ==> r[i] == inputs[i].Dict().values
  {
    seq(|inputs|, i requires 0 <= i < |inputs| => inputs[i].Dict().values)
  }

  lemma InputDicts(inputs: seq<InternalLayer>)
    requires forall i :: 0 <= i < |inputs| ==> Mergeable(inputs[i])
    ensures forall i :: 0 <= i < |inputs| ==>
      Ascending(StrOrdering(), NodeDicts(inputs)[i]) && Ascending(StrOrdering(), PredicateDicts(inputs)[i]) &&
      Ascending(EntryOrdering(), ValueDicts(inputs)[i])
  {
    hide Mergeable, Ascending, TotalOrder;
    forall i | 0 <= i < |inputs| ensures Ascending(StrOrdering(), NodeDicts(inputs)[i]) &&
      Ascending(StrOrdering(), PredicateDicts(inputs)[i]) && Ascending(EntryOrdering(), ValueDicts(inputs)[i]) {
      MergeableParts(inputs[i]);
      MergeableFields(inputs[i]);
    }
  }

  /** One base layer for several without id maps: it says exactly what the inputs say together. */
  method MergeFiles(inputs: seq<InternalLayer>, name: Name) returns (r: Option<InternalLayer>)
    requires forall i :: 0 <= i < |inputs| ==> Mergeable(inputs[i])
    ensures r.Some? <==> forall i :: 0 <= i < |inputs| ==> NodeSubjects(inputs[i])
    ensures r.Some? ==>
      r.value.Base? && r.value.name == name && BaseFiles(r.value) && Grounded(r.value) &&
      UnionOf(Meaning(r.value), inputs)
    ensures r.Some? ==> UnionDict(r.value.Dict(), inputs)
  {
    hide Mergeable, Ascending, TotalOrder, MergedTables, Meaning, MappedRun, MapsOf, AllMap, AllRuns, UnionOf,
      Grounded, KnowsAll, DecodeAll, Sorted, AllSorted, Bag, Elements, Dedup, Increasing, Filter, InternalLayer.Valid,
      InternalLayer.TripleSet, NodeSubjects;
    InputDicts(inputs);
    var nodes, nodeMaps := MergeDicts(StrOrdering(), NodeDicts(inputs));
    var predicates, predicateMaps := MergeDicts(StrOrdering(), PredicateDicts(inputs));
    var values, valueMaps := MergeDicts(EntryOrdering(), ValueDicts(inputs));
    ghost var tables := MergedTables(nodes, predicates, values);
    ValuesOnly(inputs, values);
    AllMapLengths(inputs, nodes, predicates, values, nodeMaps, predicateMaps, valueMaps);
    var runs: seq<seq<Triple>> := [];
    NoRuns(tables, inputs);
    for ix := 0 to |inputs|
      invariant |runs| == ix && AllRuns(tables, runs, inputs[..ix])
      invariant forall i :: 0 <= i < ix ==> NodeSubjects(inputs[i])
    {
      var m := TripleMap(nodeMaps[ix], predicateMaps[ix], valueMaps[ix], |nodes|);
      MapsAt(inputs, nodes, predicates, values, nodeMaps, predicateMaps, valueMaps, ix);
      var run := MapInput(inputs[ix], m, nodes, predicates, values);
      if run.None? {
        return None;
      }
      OneMoreRun(tables, runs, inputs, ix, run.value);
      runs := runs + [run.value];
    }
    assert inputs[..|inputs|] == inputs;
    RunsSorted(tables, runs, inputs);
    var merged := MergeRuns(SubjectOrder(), runs);
    RunsTogether(tables, runs, inputs, merged);
    var out := DropRepeats(merged);
    DedupAscends(SubjectOrder(), merged);
    AscendingIsIncreasing(out);
    KnownNonzero(tables, out);
    var d := Dictionary(nodes, predicates, values, IdMap(None), IdMap(None));
    var layer := BuildBaseLayer(name, d, out);
    FinishMerge(layer, d, tables, out);
    r := Some(layer);
  }

  /** What is in some of the dictionaries, and nothing else. */
  ghost predicate Together<K(!new)>(merged: seq<K>, dicts: seq<seq<K>>) {
    forall k :: k in merged <==> exists i :: 0 <= i < |dicts| && k in dicts[i]
  }

  /** The dictionaries of the inputs together, without id maps. */
  ghost predicate UnionDict(d: Dictionary, inputs: seq<InternalLayer>) {
    && Together(d.nodes, NodeDicts(inputs)) && Together(d.predicates, PredicateDicts(inputs))
    && Together(d.values, ValueDicts(inputs))
    && d.nodeValueIds == IdMap(None) && d.predicateIds == IdMap(None)
  }

  lemma NoRuns(tables: Tables, inputs: seq<InternalLayer>)
    ensures AllRuns(tables, [], inputs[..0])
  {
  }

  lemma OneMoreRun(tables: Tables, runs: seq<seq<Triple>>, inputs: seq<InternalLayer>, ix: nat, run: seq<Triple>)
    requires ix < |inputs| && AllRuns(tables, runs, inputs[..ix]) && Mergeable(inputs[ix]) &&
      MappedRun(tables, run, Meaning(inputs[ix]))
    ensures AllRuns(tables, runs + [run], inputs[..ix + 1])
  {
    hide MappedRun, Meaning;
  }

  lemma AllMapLengths(inputs: seq<InternalLayer>, nodes: seq<Str>, predicates: seq<Str>,
      values: seq<Dictionaries.Entry>, nodeMaps: seq<seq<nat>>, predicateMaps: seq<seq<nat>>,
      valueMaps: seq<seq<nat>>)
    requires AllMap(NodeDicts(inputs), nodes, nodeMaps) &&
      AllMap(PredicateDicts(inputs), predicates, predicateMaps) && AllMap(ValueDicts(inputs), values, valueMaps)
    ensures |nodeMaps| == |predicateMaps| == |valueMaps| == |inputs|
  {
  }

  lemma MapsAt(inputs: seq<InternalLayer>, nodes: seq<Str>, predicates: seq<Str>, values: seq<Dictionaries.Entry>,
      nodeMaps: seq<seq<nat>>, predicateMaps: seq<seq<nat>>, valueMaps: seq<seq<nat>>, ix: nat)
    requires AllMap(NodeDicts(inputs), nodes, nodeMaps) &&
      AllMap(PredicateDicts(inputs), predicates, predicateMaps) && AllMap(ValueDicts(inputs), values, valueMaps)
    requires ix < |inputs| && Mergeable(inputs[ix])
    ensures |nodeMaps| == |predicateMaps| == |valueMaps| == |inputs|
    ensures inputs[ix].Base? && MapsOf(inputs[ix].dict, nodes, predicates, values,
      TripleMap(nodeMaps[ix], predicateMaps[ix], valueMaps[ix], |nodes|))
  {
    hide MapsInto, Mergeable;
    MergeableFields(inputs[ix]);
  }

  lemma ValuesOnly(inputs: seq<InternalLayer>, values: seq<Dictionaries.Entry>)
    requires forall i :: 0 <= i < |inputs| ==> Mergeable(inputs[i])
    requires forall e :: e in values ==> exists i :: 0 <= i < |ValueDicts(inputs)| && e in ValueDicts(inputs)[i]
    ensures forall i :: 0 <= i < |values| ==> values[i].Value?
  {
    hide Mergeable;
    forall i | 0 <= i < |values| ensures values[i].Value? {
      assert values[i] in values;
      var k :| 0 <= k < |ValueDicts(inputs)| && values[i] in ValueDicts(inputs)[k];
      MergeableParts(inputs[k]);
      MergeableFields(inputs[k]);
      ValuesAreValues(inputs[k].dict);
    }
  }

  lemma KnownNonzero(tables: Tables, out: seq<Triple>)
    requires KnowsAll(tables, Elements(out))
    ensures Filter(Nonzero, out) == out
  {
    forall i | 0 <= i < |out| ensures Nonzero(out[i]) {
      assert out[i] in Elements(out);
    }
    FilterKeepsAll(Nonzero, out);
  }

  lemma FinishMerge(r: InternalLayer, d: Dictionary, tables: Tables, out: seq<Triple>)
    requires r.Base? && r.dict == d && r.Valid() && r.TripleSet() == Elements(out)
    requires Ascending(StrOrdering(), d.nodes) && Ascending(StrOrdering(), d.predicates) &&
      Ascending(EntryOrdering(), d.values)
    requires (forall i :: 0 <= i < |d.values| ==> d.values[i].Value?) && d.nodeValueIds == IdMap(None) &&
      d.predicateIds == IdMap(None)
    requires tables == MergedTables(d.nodes, d.predicates, d.values) && KnowsAll(tables, Elements(out))
    ensures Grounded(r) && Meaning(r) == DecodeAll(tables, Elements(out))
  {
    hide InternalLayer.Valid, InternalLayer.TripleSet, KnowsAll, DecodeAll, Ascending, Dictionary.Outer,
      Dictionary.OuterPredicates, MergedTables;
    UnmappedTables(d);
    OuterDistinct(d);
    Rollups.BaseTables(r);
    TablesMerged(d.nodes, d.predicates, d.values, tables);
  }

  lemma TablesMerged(nodes: seq<Str>, predicates: seq<Str>, values: seq<Dictionaries.Entry>, tables: Tables)
    requires tables == MergedTables(nodes, predicates, values)
    ensures tables.predicates == predicates
  {
  }
}
