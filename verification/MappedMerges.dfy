/** Merging base layers that carry id maps. The merge reads dictionaries and triples and no maps,
    so a rolled up input is misread, unless its maps happen to keep its triples. */
module MappedMerges {
  import opened Sorting
  import opened Triples
  import opened TripleIndexes
  import opened ObjectIndexes
  import opened Dictionaries
  import opened InternalLayers
  import opened IdTranslation
  import opened StringTriples
  import opened LayerFileBuilders
  import opened Compaction
  import opened BaseMerges
  import Rollups

  function WithoutMaps(l: InternalLayer): InternalLayer {
    match l
    case Base(name, d, triples) =>
      Base(name, Dictionary(d.nodes, d.predicates, d.values, IdMap(None), IdMap(None)), triples)
    case _ => l
  }

  function AllWithoutMaps(inputs: seq<InternalLayer>): (r: seq<InternalLayer>)
    ensures |r| == |inputs| && forall i :: 0 <= i < |r| ==> r[i] == WithoutMaps(inputs[i])
  {
    seq(|inputs|, i requires 0 <= i < |inputs| => WithoutMaps(inputs[i]))
  }

  lemma DictionaryParts(d: Dictionary)
    requires d.Valid()
    ensures d.nodeValueIds.Permutes(d.Count()) && d.predicateIds.Permutes(|d.predicates|)
    ensures d.Outer() == Permuted(d.Entries(), d.nodeValueIds)
    ensures d.OuterPredicates() == Permuted(d.predicates, d.predicateIds)
    ensures Distinct(d.Entries()) && Distinct(d.predicates)
    ensures Dictionary(d.nodes, d.predicates, d.values, IdMap(None), IdMap(None)).Valid()
  {
    hide Permuted;
    EntriesDistinct(d);
  }

  /** The tables of a base layer, and those the merge goes by. */
  lemma ReadWithoutMaps(l: InternalLayer)
    requires BaseFiles(l)
    ensures l.Base? && l.dict.nodeValueIds.Permutes(l.dict.Count()) && l.dict.predicateIds.Permutes(|l.dict.predicates|)
    ensures Distinct(l.dict.Entries()) && Distinct(l.dict.predicates)
    ensures Grounded(l) && TablesOf(l) == Tables(Permuted(l.dict.Entries(), l.dict.nodeValueIds),
      Permuted(l.dict.predicates, l.dict.predicateIds))
    ensures Mergeable(WithoutMaps(l)) && WithoutMaps(l).TripleSet() == l.TripleSet()
    ensures TablesOf(WithoutMaps(l)) == Tables(l.dict.Entries(), l.dict.predicates)
  {
    hide TripleIndex.Coherent, TripleIndex.Listing, InternalLayer.TripleSet, InternalLayer.Valid, ObjectIndex.Coherent,
      Ascending, Permuted, IdMap.Permutes, Distinct, Table, PredicateTable, Dictionary.Entries,
      Dictionary.Outer, Dictionary.OuterPredicates, Dictionary.Valid, IdMap.Permutes;
    GroundedBase(l);
    var d, w := l.dict, WithoutMaps(l);
    DictionaryParts(d);
    DictionaryParts(w.dict);
    SameEntries(d, w.dict);
    BaseLayerMeans(l);
    BaseLayerMeans(w);
    Rollups.BaseTables(l);
    Rollups.BaseTables(w);
    UnmappedTables(w.dict);
  }

  /* ---- when the maps do not matter ---- */

  /** The map leaves every id of its dictionary as it is. */
  ghost predicate KeepsIds(m: IdMap, n: nat)
    requires m.Permutes(n)
  {
    forall id :: 1 <= id <= n ==> m.InnerToOuter(id) == id
  }

  lemma PermutedSameIff<K>(es: seq<K>, m: IdMap)
    requires m.Permutes(|es|) && Distinct(es)
    ensures Permuted(es, m) == es <==> KeepsIds(m, |es|)
  {
    hide IdMap.Permutes;
    if Permuted(es, m) == es {
      forall id | 1 <= id <= |es| ensures m.InnerToOuter(id) == id {
        PermutedAt(es, m, id);
      }
    }
    if KeepsIds(m, |es|) {
      forall i | 0 <= i < |es| ensures Permuted(es, m)[i] == es[i] {
        PermutedAt(es, m, i + 1);
      }
    }
  }

  /** The merge goes by the ids of the layer exactly when both maps keep every id. */
  lemma TablesSameIff(l: InternalLayer)
    requires BaseFiles(l)
    ensures l.Base? && l.dict.nodeValueIds.Permutes(l.dict.Count()) && l.dict.predicateIds.Permutes(|l.dict.predicates|)
    ensures Mergeable(WithoutMaps(l)) && TablesOf(WithoutMaps(l)) == TablesOf(l) <==>
      KeepsIds(l.dict.nodeValueIds, l.dict.Count()) && KeepsIds(l.dict.predicateIds, |l.dict.predicates|)
  {
    hide BaseFiles, Mergeable, Permuted, IdMap.Permutes, Distinct, KeepsIds, Dictionary.Entries;
    ReadWithoutMaps(l);
    PermutedSameIff(l.dict.Entries(), l.dict.nodeValueIds);
    PermutedSameIff(l.dict.predicates, l.dict.predicateIds);
  }

  /** The triple whose plain reading is what `t` says through the maps. */
  function Inner(d: Dictionary, t: Triple): Triple
    requires Nonzero(t)
  {
    Triple(d.nodeValueIds.OuterToInner(t.s), d.predicateIds.OuterToInner(t.p), d.nodeValueIds.OuterToInner(t.o))
  }

  ghost predicate SaysInner(d: Dictionary, t: Triple, plain: Tables, own: Tables) {
    Nonzero(t) && own.Knows(t) && plain.Knows(Inner(d, t)) && Decode(plain, Inner(d, t)) == Decode(own, t)
  }

  ghost predicate InnerStay(d: Dictionary, ts: set<Triple>) {
    forall t :: t in ts ==> Nonzero(t) && Inner(d, t) in ts
  }

  /** Taking the ids of a triple through the maps gives a triple again. */
  ghost predicate KeepsTriples(l: InternalLayer) {
    l.Base? && l.Valid() && InnerStay(l.dict, l.TripleSet())
  }

  lemma InnerSays(l: InternalLayer, t: Triple)
    requires BaseFiles(l) && t in l.TripleSet()
    ensures Mergeable(WithoutMaps(l)) && SaysInner(l.dict, t, TablesOf(WithoutMaps(l)), TablesOf(l))
  {
    hide IdMap.Permutes, Permuted, Mergeable, InternalLayer.TripleSet, InternalLayer.Valid, IdMap.OuterToInner,
      Dictionary.Entries, Named, Distinct, TablesOf;
    ReadWithoutMaps(l);
    PermutedPlace(l.dict.Entries(), l.dict.nodeValueIds, t.s);
    PermutedPlace(l.dict.predicates, l.dict.predicateIds, t.p);
    PermutedPlace(l.dict.Entries(), l.dict.nodeValueIds, t.o);
  }

  lemma PermutedPlace<K>(es: seq<K>, m: IdMap, id: nat)
    requires m.Permutes(|es|) && |Permuted(es, m)| == |es| && 1 <= id <= |es|
    ensures 1 <= m.OuterToInner(id) <= |es| && es[m.OuterToInner(id) - 1] == Permuted(es, m)[id - 1]
  {
  }

  /** Decoding through distinct tables keeps sizes. */
  lemma {:induction false} DecodedSize(tables: Tables, ts: set<Triple>)
    requires tables.Distinct() && KnowsAll(tables, ts)
    ensures |DecodeAll(tables, ts)| == |ts|
    decreases ts
  {
    hide Tables.Distinct, Tables.Knows, Decode;
    if ts != {} {
      var t :| t in ts;
      DecodedSize(tables, ts - {t});
      DecodedMember(tables, ts - {t}, t);
      assert DecodeAll(tables, ts) == DecodeAll(tables, ts - {t}) + {Decode(tables, t)};
    } else {
      assert DecodeAll(tables, ts) == {};
    }
  }

  /** Left out, the maps are not missed exactly when they keep the triples. */
  lemma SaysTheSameIff(l: InternalLayer)
    requires BaseFiles(l)
    ensures Mergeable(WithoutMaps(l)) && Meaning(WithoutMaps(l)) == Meaning(l) <==> KeepsTriples(l)
  {
    hide BaseFiles, Mergeable, InternalLayer.TripleSet, InternalLayer.Valid, Inner, Tables.Knows, Tables.Distinct,
      Decode, TablesOf, DictsValid, Distinct, KnowsAll, DecodeAll;
    BothGrounded(l);
    DecodedAlike(l.dict, l.TripleSet(), TablesOf(WithoutMaps(l)), TablesOf(l));
  }

  lemma DecodedAlike(d: Dictionary, ts: set<Triple>, plain: Tables, own: Tables)
    requires plain.Distinct() && own.Distinct() && KnowsAll(plain, ts) && KnowsAll(own, ts)
    requires forall t :: t in ts ==> SaysInner(d, t, plain, own)
    ensures DecodeAll(plain, ts) == DecodeAll(own, ts) <==> InnerStay(d, ts)
  {
    hide Tables.Distinct, Tables.Knows, Decode, Inner, Nonzero;
    if InnerStay(d, ts) {
      DecodedSize(plain, ts);
      DecodedSize(own, ts);
      SubsetSameSize(DecodeAll(own, ts), DecodeAll(plain, ts));
      assert DecodeAll(plain, ts) == DecodeAll(own, ts);
    }
    if DecodeAll(plain, ts) == DecodeAll(own, ts) {
      forall t | t in ts ensures Nonzero(t) && Inner(d, t) in ts {
        assert Decode(own, t) in DecodeAll(own, ts);
        DecodedMember(plain, ts, Inner(d, t));
      }
    }
  }

  lemma BothGrounded(l: InternalLayer)
    requires BaseFiles(l)
    ensures l.Base? && Grounded(l) && TablesOf(l).Distinct() && KnowsAll(TablesOf(l), l.TripleSet())
    ensures Mergeable(WithoutMaps(l)) && TablesOf(WithoutMaps(l)).Distinct() &&
      KnowsAll(TablesOf(WithoutMaps(l)), l.TripleSet())
    ensures Grounded(WithoutMaps(l)) && WithoutMaps(l).TripleSet() == l.TripleSet()
    ensures forall t :: t in l.TripleSet() ==> SaysInner(l.dict, t, TablesOf(WithoutMaps(l)), TablesOf(l))
  {
    hide InternalLayer.TripleSet, InternalLayer.Valid, Tables.Knows, Inner, Decode;
    ReadWithoutMaps(l);
    forall t | t in l.TripleSet()
      ensures SaysInner(l.dict, t, TablesOf(WithoutMaps(l)), TablesOf(l))
    {
      InnerSays(l, t);
    }
  }

  /* ---- the merge ---- */

  /** One base layer for several: it says what the inputs say together when their maps are left
      out. There is none if a subject id is beyond the nodes. */
  method MergeBaseLayers(inputs: seq<InternalLayer>, name: Name) returns (r: Option<InternalLayer>)
    requires forall i :: 0 <= i < |inputs| ==> BaseFiles(inputs[i])
    ensures r.Some? <==> forall i :: 0 <= i < |inputs| ==> NodeSubjects(inputs[i])
    ensures r.Some? ==> r.value.Base? && r.value.name == name && BaseFiles(r.value) && Grounded(r.value)
    ensures r.Some? ==> UnionOf(Meaning(r.value), AllWithoutMaps(inputs))
    ensures r.Some? ==> UnionDict(r.value.Dict(), inputs)
  {
    hide BaseFiles, Mergeable, Grounded, Meaning, InternalLayer.TripleSet, InternalLayer.Valid;
    var read := AllWithoutMaps(inputs);
    forall i | 0 <= i < |read| ensures Mergeable(read[i]) && (NodeSubjects(read[i]) <==> NodeSubjects(inputs[i])) {
      ReadWithoutMaps(inputs[i]);
      SameSubjects(inputs[i]);
    }
    r := MergeFiles(read, name);
    if r.Some? {
      SameUnion(r.value.Dict(), inputs);
    }
  }

  lemma SameUnion(d: Dictionary, inputs: seq<InternalLayer>)
    requires UnionDict(d, AllWithoutMaps(inputs))
    ensures UnionDict(d, inputs)
  {
    var read := AllWithoutMaps(inputs);
    assert NodeDicts(read) == NodeDicts(inputs) && PredicateDicts(read) == PredicateDicts(inputs) &&
      ValueDicts(read) == ValueDicts(inputs);
  }

  lemma SameSubjects(l: InternalLayer)
    requires BaseFiles(l)
    ensures NodeSubjects(WithoutMaps(l)) <==> NodeSubjects(l)
  {
    hide InternalLayer.TripleSet, InternalLayer.Valid;
    ReadWithoutMaps(l);
  }

  /** Where the maps of all inputs keep their triples, the merge is the union. */
  lemma MergeIsUnion(inputs: seq<InternalLayer>, meaning: set<StringTriple>)
    requires forall i :: 0 <= i < |inputs| ==> BaseFiles(inputs[i]) && KeepsTriples(inputs[i])
    requires UnionOf(meaning, AllWithoutMaps(inputs))
    ensures UnionOf(meaning, inputs)
  {
    hide BaseFiles, Mergeable, Grounded, Meaning, InternalLayer.TripleSet, KeepsTriples;
    var read := AllWithoutMaps(inputs);
    forall i | 0 <= i < |inputs| ensures Grounded(inputs[i]) && Meaning(inputs[i]) == Meaning(read[i]) {
      BothGrounded(inputs[i]);
      SaysTheSameIff(inputs[i]);
    }
  }

  /** An input merged alone keeps what it says exactly when its maps keep its triples. */
  lemma MergedAloneIff(l: InternalLayer, meaning: set<StringTriple>)
    requires BaseFiles(l) && UnionOf(meaning, AllWithoutMaps([l]))
    ensures UnionOf(meaning, [l]) <==> KeepsTriples(l)
  {
    hide BaseFiles, Mergeable, Grounded, Meaning, InternalLayer.TripleSet, KeepsTriples;
    BothGrounded(l);
    SaysTheSameIff(l);
    var w := AllWithoutMaps([l]);
    assert w[0] == WithoutMaps(l);
    assert meaning == Meaning(WithoutMaps(l));
    if UnionOf(meaning, [l]) {
      assert [l][0] == l;
      assert meaning == Meaning(l);
    }
  }

  /* ---- maps that do matter ---- */

  /** Two nodes, given ids in the opposite order, as by a rollup of a layer that added the smaller
      one. */
  function Swapped(): Dictionary {
    Dictionary([[1], [2]], [[1]], [], IdMap(Some([1, 0])), IdMap(Some([0])))
  }

  /** A value with a smaller id than the only node. */
  function ValueFirst(): Dictionary {
    Dictionary([[1]], [[1]], [Value(0, [])], IdMap(Some([1, 0])), IdMap(Some([0])))
  }

  lemma ExampleDictionaries()
    ensures Swapped().Valid() && ValueFirst().Valid()
  {
  }

  method OneTriple(d: Dictionary, t: Triple) returns (l: InternalLayer)
    requires d.Valid() && 1 <= t.s <= d.Count() && 1 <= t.p <= |d.predicates| && 1 <= t.o <= d.Count()
    ensures BaseFiles(l) && l.Base? && l.dict == d && l.Valid() && l.TripleSet() == {t}
  {
    hide InternalLayer.Valid, InternalLayer.TripleSet, ObjectIndex.Coherent, TripleIndex.Listing, Dictionary.Valid,
      Distinct, Dictionary.Outer, Dictionary.OuterPredicates;
    SingleList(t);
    var oi := BuildIndexes([t], false);
    l := Base(0, d, oi);
    BaseLayerMeans(l);
    Rollups.BaseTables(l);
    OuterDistinct(d);
    DictionaryParts(d);
  }

  /** The merge turns the triple around. */
  method MisreadMerge() returns (l: InternalLayer, r: Option<InternalLayer>)
    ensures BaseFiles(l) && !KeepsTriples(l)
    ensures r.Some? && Grounded(r.value) && !UnionOf(Meaning(r.value), [l])
  {
    hide InternalLayer.Valid, InternalLayer.TripleSet, BaseFiles, UnionOf, Grounded, Meaning, Dictionary.Valid;
    ExampleDictionaries();
    l := OneTriple(Swapped(), Triple(1, 1, 2));
    Turned();
    r := MergeBaseLayers([l], 1);
    assert [l][0] == l;
    MergedAloneIff(l, Meaning(r.value));
  }

  lemma Turned()
    ensures Inner(Swapped(), Triple(1, 1, 2)) == Triple(2, 1, 1)
  {
  }

  /** A node whose id is beyond the number of nodes stops the merge. */
  method StoppedMerge() returns (l: InternalLayer, r: Option<InternalLayer>)
    ensures BaseFiles(l) && r.None?
  {
    hide InternalLayer.Valid, InternalLayer.TripleSet, BaseFiles, UnionOf, Grounded, Meaning, Dictionary.Valid;
    ExampleDictionaries();
    l := OneTriple(ValueFirst(), Triple(2, 1, 1));
    assert [l][0] == l;
    r := MergeBaseLayers([l], 1);
  }
}
