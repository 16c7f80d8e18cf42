/** What a layer says about strings: its id triples decoded through its id tables. */
module StringTriples {
  import opened Sorting
  import opened Triples
  import opened Dictionaries
  import opened InternalLayers
  import opened IdTranslation

  /** A triple in terms of dictionary entries. The subject of a triple added by strings is
      always a node; one added by ids need not be. */
  datatype StringTriple = StringTriple(subj: Entry, pred: Str, obj: Entry)

  /** The two id spaces of a layer, each listed by id. */
  datatype Tables = Tables(entries: seq<Entry>, predicates: seq<Str>) {
    predicate Knows(t: Triple) {
      1 <= t.s <= |entries| && 1 <= t.p <= |predicates| && 1 <= t.o <= |entries|
    }

    ghost predicate Distinct() {
      Sorting.Distinct(entries) && Sorting.Distinct(predicates)
    }

    /** `this` gives every id it knows the meaning it has in `larger`. */
    predicate PrefixOf(larger: Tables) {
      entries <= larger.entries && predicates <= larger.predicates
    }
  }

  function Decode(tables: Tables, t: Triple): StringTriple
    requires tables.Knows(t)
  {
    StringTriple(tables.entries[t.s - 1], tables.predicates[t.p - 1], tables.entries[t.o - 1])
  }

  ghost predicate KnowsAll(tables: Tables, ts: set<Triple>) {
    forall t :: t in ts ==> tables.Knows(t)
  }

  ghost function DecodeAll(tables: Tables, ts: set<Triple>): set<StringTriple>
    requires KnowsAll(tables, ts)
  {
    set t | t in ts :: Decode(tables, t)
  }

  lemma DecodeInjective(tables: Tables, a: Triple, b: Triple)
    requires tables.Distinct() && tables.Knows(a) && tables.Knows(b) && Decode(tables, a) == Decode(tables, b)
    ensures a == b
  {
  }

  lemma DecodedMember(tables: Tables, ts: set<Triple>, t: Triple)
    requires tables.Distinct() && KnowsAll(tables, ts) && tables.Knows(t)
    ensures Decode(tables, t) in DecodeAll(tables, ts) <==> t in ts
  {
    hide Tables.Distinct;
    if Decode(tables, t) in DecodeAll(tables, ts) {
      var u :| u in ts && Decode(tables, u) == Decode(tables, t);
      DecodeInjective(tables, t, u);
    }
  }

  /** Through distinct tables decoding commutes with removing and adding. */
  lemma DecodedChange(tables: Tables, a: set<Triple>, neg: set<Triple>, pos: set<Triple>)
    requires tables.Distinct() && KnowsAll(tables, a) && KnowsAll(tables, neg) && KnowsAll(tables, pos)
    ensures KnowsAll(tables, a - neg + pos)
    ensures DecodeAll(tables, a - neg + pos) == DecodeAll(tables, a) - DecodeAll(tables, neg) + DecodeAll(tables, pos)
  {
    hide Tables.Distinct, Decode, Tables.Knows;
    forall t | t in a ensures Decode(tables, t) in DecodeAll(tables, neg) <==> t in neg {
      DecodedMember(tables, neg, t);
    }
  }

  /** Larger tables decode alike. */
  lemma DecodedInLarger(small: Tables, large: Tables, ts: set<Triple>)
    requires small.PrefixOf(large) && KnowsAll(small, ts)
    ensures KnowsAll(large, ts) && DecodeAll(large, ts) == DecodeAll(small, ts)
  {
    forall t | t in ts ensures large.Knows(t) && Decode(large, t) == Decode(small, t) {
      assert small.Knows(t);
    }
  }

  /* ---- layers ---- */

  ghost function TablesOf(layer: InternalLayer): Tables
    requires DictsValid(layer)
  {
    Tables(Table(layer), PredicateTable(layer))
  }

  /** A well-formed layer whose ids are all named, each once. */
  ghost predicate Grounded(layer: InternalLayer) {
    layer.Valid() && Named(layer) && KnowsAll(TablesOf(layer), layer.TripleSet())
  }

  /** The layer's contents. */
  ghost function Meaning(layer: InternalLayer): set<StringTriple>
    requires Grounded(layer)
  {
    DecodeAll(TablesOf(layer), layer.TripleSet())
  }

  /** A layer keeps what it says when it keeps its tables and its triples. */
  lemma SameMeaning(a: InternalLayer, b: InternalLayer)
    requires Grounded(a) && b.Valid() && DictsValid(b)
    requires TablesOf(a) == TablesOf(b) && a.TripleSet() == b.TripleSet()
    ensures Grounded(b) && Meaning(a) == Meaning(b)
  {
    hide InternalLayer.Valid, InternalLayer.TripleSet, DictsValid, Table, PredicateTable, KnowsAll, Distinct;
  }
}
