/** What commits guarantee their callers: the order of the requests does not matter, and applying
    the difference to another layer reproduces it. */
module Diffs {
  import opened Sorting
  import opened Triples
  import opened Dictionaries
  import opened InternalLayers
  import opened IdTranslation
  import opened StringTriples
  import opened LayerBuilders
  import opened LayerQueries
  import MergedIterators

  /* ---- the order of the requests does not matter ---- */

  lemma SameStrings(a: seq<Str>, b: seq<Str>)
    requires Ascending(StrOrdering(), a) && Ascending(StrOrdering(), b) && forall p :: p in a <==> p in b
    ensures a == b
  {
    hide TotalOrder;
    assert Elements(a) == Elements(b);
    AscendingIsUnique(StrOrdering(), a, b);
  }

  lemma NodeIn(d: Dictionary, str: Str)
    requires d.Valid()
    ensures Node(str) in d.Entries() <==> str in d.nodes
  {
    hide Dictionary.Valid, Dictionary.Entries;
    ValuesAreValues(d);
    if str in d.nodes {
      var i :| 0 <= i < |d.nodes| && d.nodes[i] == str;
      EntryPlaces(d, i + 1);
    }
    if Node(str) in d.Entries() {
      var i :| 0 <= i < d.Count() && d.Entries()[i] == Node(str);
      EntryPlaces(d, i + 1);
    }
  }

  lemma ValueIn(d: Dictionary, e: Entry)
    requires d.Valid() && e.Value?
    ensures e in d.Entries() <==> e in d.values
  {
    hide Dictionary.Valid, Dictionary.Entries;
    if e in d.values {
      var i :| 0 <= i < |d.values| && d.values[i] == e;
      EntryPlaces(d, |d.nodes| + i + 1);
    }
    if e in d.Entries() {
      var i :| 0 <= i < d.Count() && d.Entries()[i] == e;
      EntryPlaces(d, i + 1);
    }
  }

  lemma ValidParts(d: Dictionary)
    requires d.Valid()
    ensures Ascending(StrOrdering(), d.nodes) && Ascending(StrOrdering(), d.predicates) &&
      Ascending(EntryOrdering(), d.values)
    ensures forall i :: 0 <= i < |d.values| ==> d.values[i].Value?
  {
  }

  /** Sorted dictionaries holding the same strings are the same. */
  lemma SameDictionary(a: Dictionary, b: Dictionary)
    requires a.Valid() && b.Valid() && a.nodeValueIds == b.nodeValueIds && a.predicateIds == b.predicateIds
    requires forall e :: e in a.Entries() <==> e in b.Entries()
    requires forall p :: p in a.predicates <==> p in b.predicates
    ensures a == b
  {
    hide TotalOrder, Dictionary.Valid, Dictionary.Entries, Ascending;
    ValidParts(a);
    ValidParts(b);
    forall str: Str ensures str in a.nodes <==> str in b.nodes {
      NodeIn(a, str);
      NodeIn(b, str);
    }
    forall e ensures e in a.values <==> e in b.values {
      if e.Value? {
        ValueIn(a, e);
        ValueIn(b, e);
      }
    }
    SameStrings(a.nodes, b.nodes);
    SameStrings(a.predicates, b.predicates);
    assert Elements(a.values) == Elements(b.values);
    AscendingIsUnique(EntryOrdering(), a.values, b.values);
  }

  lemma GroundedDict(layer: InternalLayer)
    requires Grounded(layer)
    ensures layer.Dict().Valid() && layer.Valid() && DictsValid(layer)
  {
    hide InternalLayer.Valid, InternalLayer.TripleSet, Table, PredicateTable;
    TableStep(layer);
  }

  /** Only the sets of requested triples matter: any two commits of the same requests on the
      same parent agree in their dictionary, ids and triples. */
  lemma CommitIsDetermined(a: InternalLayer, b: InternalLayer, name: Name, parent: Option<InternalLayer>,
      adds: set<StringTriple>, removes: set<StringTriple>)
    requires CommitOf(a, name, parent, adds, removes) && CommitOf(b, name, parent, adds, removes)
    ensures a.Valid() && b.Valid() && a.Dict() == b.Dict() && a.TripleSet() == b.TripleSet()
  {
    hide Grounded, GroundedParent, BaseTables, UsesEntry, UsesPredicate, Dictionary.Valid, Dictionary.Entries,
      InternalLayer.Valid, InternalLayer.TripleSet, Meaning, Table, PredicateTable, DictsValid, Dictionary.Outer,
      Dictionary.OuterPredicates;
    GroundedDict(a);
    GroundedDict(b);
    SameDictionary(a.Dict(), b.Dict());
    TablesOnTop(a, parent);
    TablesOnTop(b, parent);
    SameTriples(a, b);
  }

  lemma SameTriples(a: InternalLayer, b: InternalLayer)
    requires Grounded(a) && Grounded(b) && TablesOf(a) == TablesOf(b) && Meaning(a) == Meaning(b)
    ensures a.TripleSet() == b.TripleSet()
  {
    hide InternalLayer.Valid, InternalLayer.TripleSet, Table, PredicateTable, DictsValid, DecodeAll, Decode;
    forall t ensures t in a.TripleSet() <==> t in b.TripleSet() {
      if TablesOf(a).Knows(t) {
        DecodedMember(TablesOf(a), a.TripleSet(), t);
        DecodedMember(TablesOf(a), b.TripleSet(), t);
      }
    }
  }

  /* ---- apply_diff ---- */

  /** The triples that can be spelled out: their subject is a node. Only id triples can have a
      value as subject. */
  ghost function Spellable(sts: set<StringTriple>): set<StringTriple> {
    set st | st in sts && st.subj.Node?
  }

  lemma SpellableMore(sts: set<StringTriple>, st: StringTriple)
    ensures Spellable({}) == {}
    ensures Spellable(sts + {st}) == Spellable(sts) + (if st.subj.Node? then {st} else {})
  {
  }

  /** A triple of the layer in strings (`id_triple_to_string`). */
  method IdTripleToString(layer: InternalLayer, t: Triple) returns (r: Option<StringTriple>)
    requires Grounded(layer)
    ensures r.Some? <==> TablesOf(layer).Knows(t) && Decode(TablesOf(layer), t).subj.Node?
    ensures r.Some? ==> r.value == Decode(TablesOf(layer), t)
  {
    hide InternalLayer.Valid, InternalLayer.TripleSet, Table, PredicateTable, DictsValid, KnowsAll, Distinct;
    var s := IdSubject(layer, t.s);
    if s.None? {
      return None;
    }
    var p := IdPredicate(layer, t.p);
    if p.None? {
      return None;
    }
    var o := IdEntry(layer, t.o);
    if o.None? {
      return None;
    }
    return Some(StringTriple(Node(s.value), p.value, o.value));
  }

  /** Does the layer hold a string triple (`value_triple_exists`)? */
  method ValueTripleExists(layer: InternalLayer, st: StringTriple) returns (found: bool)
    requires Grounded(layer)
    ensures found <==> st in Meaning(layer)
  {
    hide InternalLayer.Valid, InternalLayer.TripleSet, Table, PredicateTable, DictsValid, Distinct, Meaning, DecodeAll;
    Unknown(layer, st);
    var s := EntryId(layer, st.subj);
    if s.None? {
      return false;
    }
    var p := PredicateId(layer, st.pred);
    if p.None? {
      return false;
    }
    var o := EntryId(layer, st.obj);
    if o.None? {
      return false;
    }
    var t := Triple(s.value, p.value, o.value);
    MeaningMember(layer, t);
    found := TripleExists(layer, s.value, p.value, o.value);
  }

  lemma Unknown(layer: InternalLayer, st: StringTriple)
    requires Grounded(layer)
    ensures st in Meaning(layer) ==>
      st.subj in Table(layer) && st.pred in PredicateTable(layer) && st.obj in Table(layer)
  {
    hide InternalLayer.Valid, InternalLayer.TripleSet, Table, PredicateTable, DictsValid;
  }

  lemma MeaningMember(layer: InternalLayer, t: Triple)
    requires Grounded(layer) && TablesOf(layer).Knows(t)
    ensures Decode(TablesOf(layer), t) in Meaning(layer) <==> t in layer.TripleSet()
  {
    hide InternalLayer.Valid, InternalLayer.TripleSet, Table, PredicateTable, DictsValid;
    DecodedMember(TablesOf(layer), layer.TripleSet(), t);
  }

  lemma TriplesKnown(layer: InternalLayer, ts: seq<Triple>)
    requires Grounded(layer) && Answers(BySubject, Always(), layer.TripleSet(), ts)
    ensures Elements(ts) == layer.TripleSet() && KnowsAll(TablesOf(layer), Elements(ts))
    ensures DecodeAll(TablesOf(layer), Elements(ts)) == Meaning(layer)
  {
    hide InternalLayer.Valid, InternalLayer.TripleSet, Table, PredicateTable, DictsValid, Increasing;
    assert MergedIterators.Kept(Always(), layer.TripleSet()) == layer.TripleSet();
  }

  lemma OneMoreDecoded(tables: Tables, ts: seq<Triple>, i: nat)
    requires i < |ts| && KnowsAll(tables, Elements(ts))
    ensures tables.Knows(ts[i]) && KnowsAll(tables, Elements(ts[..i])) && KnowsAll(tables, Elements(ts[..i + 1]))
    ensures Decode(tables, ts[i]) in DecodeAll(tables, Elements(ts))
    ensures DecodeAll(tables, Elements(ts[..i + 1])) == DecodeAll(tables, Elements(ts[..i])) + {Decode(tables, ts[i])}
  {
    hide Tables.Knows, Decode;
    assert ts[i] in Elements(ts);
    assert Elements(ts[..i + 1]) == Elements(ts[..i]) + {ts[i]};
    assert Elements(ts[..i]) <= Elements(ts) && Elements(ts[..i + 1]) <= Elements(ts);
  }

  /** Removes what `here` holds and `other` does not. */
  method RemoveMissing(builder: SimpleLayerBuilder, here: InternalLayer, other: InternalLayer)
    requires builder.Valid() && Grounded(here) && Grounded(other)
    modifies builder
    ensures builder.Valid() && builder.Additions() == old(builder.Additions())
    ensures builder.Removals() == old(builder.Removals()) + (Spellable(Meaning(here)) - Meaning(other))
  {
    hide Grounded, SimpleLayerBuilder.Valid, SimpleLayerBuilder.Additions, SimpleLayerBuilder.Removals, Meaning,
      TablesOf, Answers, DecodeAll, KnowsAll, Decode, InternalLayer.Valid, InternalLayer.TripleSet, Elements, Spellable;
    GroundedDict(here);
    SpellableMore({}, StringTriple(Node([]), [], Node([])));
    var ts := AllTriples(here);
    TriplesKnown(here, ts);
    ghost var tables := TablesOf(here);
    ghost var seen: set<StringTriple> := {};
    NothingDecoded(tables, ts);
    for i := 0 to |ts|
      invariant builder.Valid() && builder.Additions() == old(builder.Additions())
      invariant KnowsAll(tables, Elements(ts[..i])) && seen == DecodeAll(tables, Elements(ts[..i]))
      invariant builder.Removals() == old(builder.Removals()) + (Spellable(seen) - Meaning(other))
    {
      OneMoreDecoded(tables, ts, i);
      var st := IdTripleToString(here, ts[i]);
      SpellableMore(seen, Decode(tables, ts[i]));
      seen := seen + {Decode(tables, ts[i])};
      if st.Some? {
        var found := ValueTripleExists(other, st.value);
        if !found {
          builder.RemoveValueTriple(st.value);
        }
      }
    }
    assert ts[..|ts|] == ts;
  }

  /** Adds what `other` holds and the parent does not. */
  method AddMissing(builder: SimpleLayerBuilder, other: InternalLayer)
    requires builder.Valid() && Grounded(other)
    modifies builder
    ensures builder.Valid() && builder.Removals() == old(builder.Removals())
    ensures builder.Additions() == old(builder.Additions()) + (Spellable(Meaning(other)) - BaseMeaning(builder.parent))
  {
    hide Grounded, GroundedParent, SimpleLayerBuilder.Valid, SimpleLayerBuilder.Additions,
      SimpleLayerBuilder.Removals, Meaning, BaseMeaning, TablesOf, Answers, DecodeAll, KnowsAll, Decode,
      InternalLayer.Valid, InternalLayer.TripleSet, Elements, Spellable;
    SpellableMore({}, StringTriple(Node([]), [], Node([])));
    builder.Parents();
    ParentGrounded(builder.parent);
    BaseMeaningIs(builder.parent);
    GroundedDict(other);
    var ts := AllTriples(other);
    TriplesKnown(other, ts);
    ghost var tables := TablesOf(other);
    ghost var seen: set<StringTriple> := {};
    NothingDecoded(tables, ts);
    for i := 0 to |ts|
      invariant builder.Valid() && builder.Removals() == old(builder.Removals())
      invariant KnowsAll(tables, Elements(ts[..i])) && seen == DecodeAll(tables, Elements(ts[..i]))
      invariant builder.Additions() == old(builder.Additions()) + (Spellable(seen) - BaseMeaning(builder.parent))
    {
      OneMoreDecoded(tables, ts, i);
      var st := IdTripleToString(other, ts[i]);
      SpellableMore(seen, Decode(tables, ts[i]));
      seen := seen + {Decode(tables, ts[i])};
      if st.Some? {
        var found := false;
        if builder.parent.Some? {
          found := ValueTripleExists(builder.parent.value, st.value);
        }
        if !found {
          builder.AddValueTriple(st.value);
        }
      }
    }
    assert ts[..|ts|] == ts;
  }

  lemma ParentGrounded(parent: Option<InternalLayer>)
    requires GroundedParent(parent)
    ensures parent.Some? ==> Grounded(parent.value)
  {
  }

  lemma NothingDecoded(tables: Tables, ts: seq<Triple>)
    ensures KnowsAll(tables, Elements(ts[..0])) && DecodeAll(tables, Elements(ts[..0])) == {}
  {
  }

  /** Asks for the changes that turn the builder's parent into `other`, as far as they can be
      spelled out. */
  method ApplyDiff(builder: SimpleLayerBuilder, other: InternalLayer)
    requires builder.Valid() && Grounded(other)
    modifies builder
    ensures builder.Valid()
    ensures builder.Removals() == old(builder.Removals()) + (Spellable(BaseMeaning(builder.parent)) - Meaning(other))
    ensures builder.Additions() == old(builder.Additions()) + (Spellable(Meaning(other)) - BaseMeaning(builder.parent))
  {
    hide Grounded, GroundedParent, SimpleLayerBuilder.Valid, SimpleLayerBuilder.Additions,
      SimpleLayerBuilder.Removals, BaseMeaning, Meaning, TablesOf;
    builder.Parents();
    BaseMeaningIs(builder.parent);
    ParentGrounded(builder.parent);
    if builder.parent.Some? {
      RemoveMissing(builder, builder.parent.value, other);
    }
    AddMissing(builder, other);
  }

  /** A fresh builder that applies the difference and commits yields a layer with all that can be
      spelled out of the other one. It yields exactly what the other layer says if and only if
      both layers agree on what cannot be spelled out: so whenever all subjects are nodes. */
  method CommitDiff(name: Name, parent: Option<InternalLayer>, other: InternalLayer) returns (layer: InternalLayer)
    requires GroundedParent(parent) && Grounded(other)
    ensures Grounded(layer) && layer.ImmediateParent() == parent
    ensures Spellable(Meaning(layer)) == Spellable(Meaning(other))
    ensures Meaning(layer) == Meaning(other) <==>
      BaseMeaning(parent) - Spellable(BaseMeaning(parent)) == Meaning(other) - Spellable(Meaning(other))
  {
    hide Grounded, GroundedParent, SimpleLayerBuilder.Valid, SimpleLayerBuilder.Additions,
      SimpleLayerBuilder.Removals, BaseMeaning, Meaning, CommitOf, Spellable;
    var builder := new SimpleLayerBuilder(name, parent);
    ApplyDiff(builder, other);
    layer := builder.Commit();
    CommittedContents(layer, name, parent, builder.Additions(), builder.Removals());
    DiffCommitted(BaseMeaning(parent), Meaning(other));
    assert Meaning(layer) == (BaseMeaning(parent) - Spellable(BaseMeaning(parent))) + Spellable(Meaning(other));
  }

  lemma DiffCommitted(here: set<StringTriple>, other: set<StringTriple>)
    ensures var adds, removes := Spellable(other) - here, Spellable(here) - other;
      (here - (removes - adds)) + (adds - removes) == (here - Spellable(here)) + Spellable(other)
    ensures Spellable((here - Spellable(here)) + Spellable(other)) == Spellable(other)
    ensures (here - Spellable(here)) + Spellable(other) == other <==>
      here - Spellable(here) == other - Spellable(other)
  {
    var result := (here - Spellable(here)) + Spellable(other);
    if result == other {
      assert forall st :: st in here - Spellable(here) <==> st in result && !st.subj.Node?;
    }
  }

  lemma CommittedContents(layer: InternalLayer, name: Name, parent: Option<InternalLayer>, adds: set<StringTriple>,
      removes: set<StringTriple>)
    requires CommitOf(layer, name, parent, adds, removes)
    ensures GroundedParent(parent) && Grounded(layer) && layer.ImmediateParent() == parent
    ensures Meaning(layer) == (BaseMeaning(parent) - (removes - adds)) + (adds - removes)
  {
    hide Grounded, GroundedParent, BaseMeaning, Meaning, UsesEntry, UsesPredicate;
  }

  lemma BaseMeaningIs(parent: Option<InternalLayer>)
    requires GroundedParent(parent)
    ensures BaseMeaning(parent) == if parent.None? then {} else Meaning(parent.value)
  {
    hide Grounded, Meaning;
  }
}
