/** Translating between global ids and dictionary entries by walking the layer stack. */
module IdTranslation {
  import opened Sorting
  import opened Triples
  import opened Dictionaries
  import opened InternalLayers

  /** The entries of the stack by global id: the parent's, then the layer's own by outer id. */
  ghost function Table(layer: InternalLayer): seq<Entry>
    requires DictsValid(layer)
    decreases layer.Size()
  {
    (match layer.ImmediateParent() case None => [] case Some(p) => Table(p)) + layer.Dict().Outer()
  }

  ghost function PredicateTable(layer: InternalLayer): seq<Str>
    requires DictsValid(layer)
    decreases layer.Size()
  {
    (match layer.ImmediateParent() case None => [] case Some(p) => PredicateTable(p)) + layer.Dict().OuterPredicates()
  }

  ghost predicate DictsValid(layer: InternalLayer)
    decreases layer.Size()
  {
    layer.Dict().Valid() && (layer.ImmediateParent().Some? ==> DictsValid(layer.ImmediateParent().value))
  }

  /** No entry is given an id twice: a layer's dictionary holds only what is new. */
  ghost predicate Named(layer: InternalLayer) {
    DictsValid(layer) && Distinct(Table(layer)) && Distinct(PredicateTable(layer))
  }

  /** The number of nodes and values known to the layer, its ancestors included. */
  function NodeAndValueCount(layer: InternalLayer): (n: nat)
    ensures DictsValid(layer) ==> n == |Table(layer)|
    decreases layer.Size()
  {
    (match layer.ImmediateParent() case None => 0 case Some(p) => NodeAndValueCount(p)) + layer.Dict().Count()
  }

  function PredicateCount(layer: InternalLayer): (n: nat)
    ensures DictsValid(layer) ==> n == |PredicateTable(layer)|
    decreases layer.Size()
  {
    (match layer.ImmediateParent() case None => 0 case Some(p) => PredicateCount(p)) + |layer.Dict().predicates|
  }

  function ParentCount(layer: InternalLayer): nat {
    match layer.ImmediateParent() case None => 0 case Some(p) => NodeAndValueCount(p)
  }

  function ParentPredicateCount(layer: InternalLayer): nat {
    match layer.ImmediateParent() case None => 0 case Some(p) => PredicateCount(p)
  }

  /* ---- one dictionary ---- */

  lemma AbsentEntry(d: Dictionary, e: Entry)
    requires d.Valid()
    requires match e case Node(str) => str !in d.nodes case Value(_, _) => e !in d.values
    ensures e !in d.Outer()
  {
    hide Dictionary.Valid, Dictionary.Outer, Dictionary.Entries, Distinct;
    OuterDistinct(d);
    ValuesAreValues(d);
    assert e in d.Outer() <==> e in Elements(d.Outer());
    forall i | 0 <= i < d.Count() ensures d.Entries()[i] != e {
      EntryPlaces(d, i + 1);
    }
  }

  lemma ValuesAreValues(d: Dictionary)
    requires d.Valid()
    ensures forall i :: 0 <= i < |d.values| ==> d.values[i].Value?
    ensures |d.Outer()| == d.Count() && |d.OuterPredicates()| == |d.predicates|
  {
  }

  lemma OwnIdAt(d: Dictionary, i: nat)
    requires d.Valid() && 1 <= i <= d.Count()
    ensures var outer := d.nodeValueIds.InnerToOuter(i);
      1 <= outer <= d.Count() && d.Outer()[outer - 1] == d.Entries()[i - 1]
  {
    PermutedAt(d.Entries(), d.nodeValueIds, i);
  }

  lemma MapsPermute(d: Dictionary)
    requires d.Valid()
    ensures d.nodeValueIds.Permutes(d.Count()) && d.predicateIds.Permutes(|d.predicates|)
  {
    hide Ascending, IdMap.Permutes;
  }

  lemma OwnEntryAt(d: Dictionary, id: nat)
    requires d.Valid() && 1 <= id
    ensures var inner := d.nodeValueIds.OuterToInner(id);
      if id <= d.Count() then 1 <= inner <= d.Count() && d.Outer()[id - 1] == d.Entries()[inner - 1]
        else inner > d.Count()
  {
    hide Dictionary.Valid, Dictionary.Outer, Dictionary.Entries, IdMap.Permutes, IdMap.InnerToOuter, IdMap.OuterToInner;
    MapsPermute(d);
    if id <= d.Count() {
      IdMapInverts(d.nodeValueIds, d.Count(), id);
      OwnIdAt(d, d.nodeValueIds.OuterToInner(id));
    } else {
      IdMapBeyond(d.nodeValueIds, d.Count(), id);
    }
  }

  lemma OwnPredicateAt(d: Dictionary, id: nat)
    requires d.Valid() && 1 <= id
    ensures var inner := d.predicateIds.OuterToInner(id);
      if id <= |d.predicates| then 1 <= inner <= |d.predicates| &&
        d.OuterPredicates()[id - 1] == d.predicates[inner - 1] else inner > |d.predicates|
  {
    if id <= |d.predicates| {
      IdMapInverts(d.predicateIds, |d.predicates|, id);
      PermutedAt(d.predicates, d.predicateIds, d.predicateIds.OuterToInner(id));
    } else {
      IdMapBeyond(d.predicateIds, |d.predicates|, id);
    }
  }

  /** Nodes come before values. */
  lemma EntryPlaces(d: Dictionary, i: nat)
    requires 1 <= i <= d.Count()
    ensures |d.Entries()| == d.Count()
    ensures d.Entries()[i - 1] == if i <= |d.nodes| then Node(d.nodes[i - 1]) else d.values[i - 1 - |d.nodes|]
  {
    if i > |d.nodes| {
      assert d.Entries()[|d.nodes| + (i - 1 - |d.nodes|)] == d.values[i - 1 - |d.nodes|];
    }
  }

  /** Where an entry stands in the dictionary: values come after the nodes. */
  function InnerId(d: Dictionary, e: Entry): (r: Option<nat>)
    ensures r.Some? ==> 1 <= r.value
  {
    match e
    case Node(str) => Find(d.nodes, str)
    case Value(_, _) =>
      match Find(d.values, e)
      case None => None
      case Some(i) => Some(i + |d.nodes|)
  }

  lemma InnerIdIs(d: Dictionary, e: Entry)
    requires d.Valid()
    ensures InnerId(d, e).Some? ==> 1 <= InnerId(d, e).value <= d.Count() && d.Entries()[InnerId(d, e).value - 1] == e
    ensures InnerId(d, e).None? ==> e !in d.Outer()
  {
    hide Dictionary.Valid, Dictionary.Outer, Dictionary.Entries;
    match InnerId(d, e) {
      case None => AbsentEntry(d, e);
      case Some(i) => EntryPlaces(d, i);
    }
  }

  /** The outer id of a node or value in a layer's own dictionary. */
  function OwnId(d: Dictionary, e: Entry): Option<nat> {
    match InnerId(d, e)
    case None => None
    case Some(i) => Some(d.nodeValueIds.InnerToOuter(i))
  }

  lemma OwnIdIs(d: Dictionary, e: Entry)
    requires d.Valid()
    ensures |d.Outer()| == d.Count()
    ensures OwnId(d, e).Some? ==> 1 <= OwnId(d, e).value <= d.Count() && d.Outer()[OwnId(d, e).value - 1] == e
    ensures OwnId(d, e).None? ==> e !in d.Outer()
  {
    hide Dictionary.Valid, Dictionary.Outer, Dictionary.Entries, IdMap.InnerToOuter, InnerId;
    ValuesAreValues(d);
    InnerIdIs(d, e);
    if InnerId(d, e).Some? {
      OwnIdAt(d, InnerId(d, e).value);
    }
  }

  function OwnPredicateId(d: Dictionary, p: Str): Option<nat> {
    match Find(d.predicates, p)
    case None => None
    case Some(i) => Some(d.predicateIds.InnerToOuter(i))
  }

  lemma OwnPredicateIdIs(d: Dictionary, p: Str)
    requires d.Valid()
    ensures |d.OuterPredicates()| == |d.predicates|
    ensures OwnPredicateId(d, p).Some? ==>
      1 <= OwnPredicateId(d, p).value <= |d.predicates| && d.OuterPredicates()[OwnPredicateId(d, p).value - 1] == p
    ensures OwnPredicateId(d, p).None? ==> p !in d.OuterPredicates()
  {
    hide Dictionary.Valid, Dictionary.OuterPredicates, Distinct, IdMap.InnerToOuter, IdMap.Permutes;
    ValuesAreValues(d);
    OuterDistinct(d);
    PredicatesAre(d);
    match Find(d.predicates, p) {
      case None =>
        assert p in d.OuterPredicates() <==> p in Elements(d.OuterPredicates());
      case Some(i) =>
        PermutedAt(d.predicates, d.predicateIds, i);
    }
  }

  lemma PredicatesAre(d: Dictionary)
    requires d.Valid()
    ensures d.predicateIds.Permutes(|d.predicates|) && d.OuterPredicates() == Permuted(d.predicates, d.predicateIds)
  {
    hide Ascending, IdMap.Permutes;
  }

  /** The entry with an outer id in a layer's own dictionary. */
  function OwnEntry(d: Dictionary, id: nat): Option<Entry>
    requires id > 0
  {
    var inner := d.nodeValueIds.OuterToInner(id);
    if inner > |d.nodes| then
      if inner - |d.nodes| <= |d.values| then Some(d.values[inner - |d.nodes| - 1]) else None
    else if inner == 0 then None
    else Some(Node(d.nodes[inner - 1]))
  }

  lemma OwnEntryIs(d: Dictionary, id: nat)
    requires d.Valid() && id > 0
    ensures |d.Outer()| == d.Count()
    ensures OwnEntry(d, id) == if id <= d.Count() then Some(d.Outer()[id - 1]) else None
  {
    hide Dictionary.Valid, Dictionary.Outer, Dictionary.Entries, IdMap.OuterToInner;
    ValuesAreValues(d);
    OwnEntryAt(d, id);
    var inner := d.nodeValueIds.OuterToInner(id);
    if 1 <= inner <= d.Count() {
      EntryPlaces(d, inner);
    }
  }

  function OwnPredicate(d: Dictionary, id: nat): Option<Str>
    requires id > 0
  {
    var inner := d.predicateIds.OuterToInner(id);
    if 1 <= inner <= |d.predicates| then Some(d.predicates[inner - 1]) else None
  }

  lemma OwnPredicateIs(d: Dictionary, id: nat)
    requires d.Valid() && id > 0
    ensures |d.OuterPredicates()| == |d.predicates|
    ensures OwnPredicate(d, id) == if id <= |d.predicates| then Some(d.OuterPredicates()[id - 1]) else None
  {
    hide Dictionary.Valid, Dictionary.OuterPredicates, IdMap.OuterToInner;
    ValuesAreValues(d);
    OwnPredicateAt(d, id);
  }

  /* ---- the walks ---- */

  /** How a layer's tables extend its parent's. */
  lemma TableStep(l: InternalLayer)
    requires DictsValid(l)
    ensures l.Dict().Valid() && |l.Dict().Outer()| == l.Dict().Count() &&
      |l.Dict().OuterPredicates()| == |l.Dict().predicates|
    ensures l.ImmediateParent().None? ==>
      Table(l) == l.Dict().Outer() && PredicateTable(l) == l.Dict().OuterPredicates()
    ensures l.ImmediateParent().Some? ==> DictsValid(l.ImmediateParent().value)
    ensures l.ImmediateParent().Some? ==> Table(l) == Table(l.ImmediateParent().value) + l.Dict().Outer()
    ensures l.ImmediateParent().Some? ==>
      PredicateTable(l) == PredicateTable(l.ImmediateParent().value) + l.Dict().OuterPredicates()
  {
    ValuesAreValues(l.Dict());
  }

  /** What a layer's own dictionary says about an entry, and what is left to its parent. */
  lemma EntryStep(l: InternalLayer, e: Entry)
    requires DictsValid(l)
    ensures l.Dict().Valid()
    ensures OwnId(l.Dict(), e).Some? ==> var id := OwnId(l.Dict(), e).value + ParentCount(l);
      1 <= id <= |Table(l)| && Table(l)[id - 1] == e
    ensures OwnId(l.Dict(), e).None? && l.ImmediateParent().None? ==> e !in Table(l)
    ensures l.ImmediateParent().Some? ==>
      DictsValid(l.ImmediateParent().value) && Table(l.ImmediateParent().value) <= Table(l)
    ensures OwnId(l.Dict(), e).None? && l.ImmediateParent().Some? ==>
      (e in Table(l) <==> e in Table(l.ImmediateParent().value))
  {
    hide Dictionary.Valid, Dictionary.Outer, Dictionary.OuterPredicates, Dictionary.Count, DictsValid, Table,
      PredicateTable, OwnId, NodeAndValueCount;
    TableStep(l);
    OwnIdIs(l.Dict(), e);
  }

  lemma PredicateStep(l: InternalLayer, p: Str)
    requires DictsValid(l)
    ensures l.Dict().Valid()
    ensures OwnPredicateId(l.Dict(), p).Some? ==>
      var id := OwnPredicateId(l.Dict(), p).value + ParentPredicateCount(l);
      1 <= id <= |PredicateTable(l)| && PredicateTable(l)[id - 1] == p
    ensures OwnPredicateId(l.Dict(), p).None? && l.ImmediateParent().None? ==> p !in PredicateTable(l)
    ensures l.ImmediateParent().Some? ==>
      DictsValid(l.ImmediateParent().value) && PredicateTable(l.ImmediateParent().value) <= PredicateTable(l)
    ensures OwnPredicateId(l.Dict(), p).None? && l.ImmediateParent().Some? ==>
      (p in PredicateTable(l) <==> p in PredicateTable(l.ImmediateParent().value))
  {
    hide Dictionary.Valid, Dictionary.Outer, Dictionary.OuterPredicates, Dictionary.Count, DictsValid, Table,
      PredicateTable, OwnPredicateId, PredicateCount;
    TableStep(l);
    OwnPredicateIdIs(l.Dict(), p);
  }

  /** The global id of a node (`subject_id`, `object_node_id`) or value (`object_value_id`):
      found exactly when the stack knows the entry. */
  method EntryId(layer: InternalLayer, e: Entry) returns (r: Option<nat>)
    requires DictsValid(layer)
    ensures r.Some? ==> 1 <= r.value <= |Table(layer)| && Table(layer)[r.value - 1] == e
    ensures r.None? ==> e !in Table(layer)
  {
    hide Dictionary.Valid, Dictionary.Outer, Dictionary.OuterPredicates, Dictionary.Count, DictsValid, OwnId, Table,
      PredicateTable, NodeAndValueCount;
    var l := layer;
    EntryStep(l, e);
    var id := OwnId(l.Dict(), e);
    while id.None? && l.ImmediateParent().Some?
      invariant DictsValid(l) && l.Dict().Valid() && id == OwnId(l.Dict(), e)
      invariant Table(l) <= Table(layer) && (e in Table(layer) <==> e in Table(l))
      decreases l.Size()
    {
      EntryStep(l, e);
      l := l.ImmediateParent().value;
      EntryStep(l, e);
      id := OwnId(l.Dict(), e);
    }
    EntryStep(l, e);
    match id {
      case None => return None;
      case Some(own) => return Some(own + ParentCount(l));
    }
  }

  method PredicateId(layer: InternalLayer, p: Str) returns (r: Option<nat>)
    requires DictsValid(layer)
    ensures r.Some? ==> 1 <= r.value <= |PredicateTable(layer)| && PredicateTable(layer)[r.value - 1] == p
    ensures r.None? ==> p !in PredicateTable(layer)
  {
    hide Dictionary.Valid, Dictionary.Outer, Dictionary.OuterPredicates, Dictionary.Count, PredicateCount, DictsValid,
      OwnPredicateId, Table, PredicateTable;
    var l := layer;
    PredicateStep(l, p);
    var id := OwnPredicateId(l.Dict(), p);
    while id.None? && l.ImmediateParent().Some?
      invariant DictsValid(l) && l.Dict().Valid() && id == OwnPredicateId(l.Dict(), p)
      invariant PredicateTable(l) <= PredicateTable(layer) && (p in PredicateTable(layer) <==> p in PredicateTable(l))
      decreases l.Size()
    {
      PredicateStep(l, p);
      l := l.ImmediateParent().value;
      PredicateStep(l, p);
      id := OwnPredicateId(l.Dict(), p);
    }
    PredicateStep(l, p);
    match id {
      case None => return None;
      case Some(own) => return Some(own + ParentPredicateCount(l));
    }
  }

  /** The entry with a global id (`id_object`; `id_subject` keeps only nodes). */
  method IdEntry(layer: InternalLayer, id: nat) returns (r: Option<Entry>)
    requires DictsValid(layer)
    ensures r == if 1 <= id <= |Table(layer)| then Some(Table(layer)[id - 1]) else None
  {
    hide Dictionary.Valid, Dictionary.Outer, Dictionary.OuterPredicates, DictsValid, OwnEntry, Table, PredicateTable;
    if id == 0 {
      return None;
    }
    var l := layer;
    var parentCount := NodeAndValueCount(layer);
    while true
      invariant DictsValid(l) && parentCount == |Table(l)| && Table(l) <= Table(layer)
      invariant l == layer || id <= |Table(l)|
      decreases l.Size()
    {
      TableStep(l);
      var corrected := id;
      var parent := l.ImmediateParent();
      if parent.Some? {
        parentCount := parentCount - l.Dict().Count();
        if corrected > parentCount {
          // the entry, if it exists, is in this layer
          corrected := corrected - parentCount;
        } else {
          l := parent.value;
          continue;
        }
      }
      OwnEntryIs(l.Dict(), corrected);
      return OwnEntry(l.Dict(), corrected);
    }
  }

  method IdSubject(layer: InternalLayer, id: nat) returns (r: Option<Str>)
    requires DictsValid(layer)
    ensures r.Some? <==> 1 <= id <= |Table(layer)| && Table(layer)[id - 1].Node?
    ensures r.Some? ==> Table(layer)[id - 1] == Node(r.value)
  {
    var e := IdEntry(layer, id);
    match e {
      case Some(Node(str)) => return Some(str);
      case _ => return None;
    }
  }

  method IdPredicate(layer: InternalLayer, id: nat) returns (r: Option<Str>)
    requires DictsValid(layer)
    ensures r == if 1 <= id <= |PredicateTable(layer)| then Some(PredicateTable(layer)[id - 1]) else None
  {
    hide Dictionary.Valid, Dictionary.Outer, Dictionary.OuterPredicates, DictsValid, OwnPredicate, Table,
      PredicateTable;
    if id == 0 {
      return None;
    }
    var l := layer;
    var parentCount := PredicateCount(layer);
    while true
      invariant DictsValid(l) && parentCount == |PredicateTable(l)| && PredicateTable(l) <= PredicateTable(layer)
      invariant l == layer || id <= |PredicateTable(l)|
      decreases l.Size()
    {
      TableStep(l);
      var corrected := id;
      var parent := l.ImmediateParent();
      if parent.Some? {
        parentCount := parentCount - |l.Dict().predicates|;
        if corrected > parentCount {
          corrected := corrected - parentCount;
        } else {
          l := parent.value;
          continue;
        }
      }
      OwnPredicateIs(l.Dict(), corrected);
      return OwnPredicate(l.Dict(), corrected);
    }
  }

  /** Ids and entries undo each other. */
  method RoundTrip(layer: InternalLayer, id: nat) returns (e: Option<Entry>, back: Option<nat>)
    requires Named(layer)
    ensures e.Some? <==> 1 <= id <= NodeAndValueCount(layer)
    ensures e.Some? ==> back == Some(id)
    ensures e.None? ==> back == None
  {
    hide Dictionary.Valid, DictsValid, Table, PredicateTable;
    e := IdEntry(layer, id);
    back := None;
    if e.Some? {
      back := EntryId(layer, e.value);
    }
  }
}
