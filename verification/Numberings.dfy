/** Gathering the entries of several dictionaries with their global ids, as rolling up and
    squashing both do, and the marks that say which entries are still used. */
module Numberings {
  import opened Sorting
  import opened Triples
  import opened Dictionaries
  import opened InternalLayers
  import opened IdTranslation
  import opened Remapping

  predicate IsNode(e: Entry) {
    e.Node?
  }

  predicate IsValue(e: Entry) {
    e.Value?
  }

  predicate Every<K>(k: K) {
    true
  }

  /** `listed` holds the kept ids of the table whose entries qualify, each once. */
  ghost predicate Numbers<K(!new)>(table: seq<K>, which: K -> bool, keep: set<nat>, listed: seq<(K, nat)>) {
    && IdsDistinct(listed)
    && (forall i :: 0 <= i < |listed| ==> 1 <= listed[i].1 <= |table| && table[listed[i].1 - 1] == listed[i].0)
    && (forall i :: 0 <= i < |listed| ==> which(listed[i].0) && listed[i].1 in keep)
    && (forall id :: id in keep && 1 <= id <= |table| && which(table[id - 1]) ==> HasId(listed, id))
  }

  ghost predicate HasId<K>(listed: seq<(K, nat)>, id: nat) {
    exists i :: 0 <= i < |listed| && listed[i].1 == id
  }

  /* ---- one dictionary ---- */

  /** The nodes of a dictionary with their outer ids, moved up by the ids given out before. */
  function NodeRun(d: Dictionary, offset: nat): (r: seq<(Entry, nat)>)
    ensures |r| == |d.nodes|
    ensures forall i :: 0 <= i < |r| ==> r[i] == (Node(d.nodes[i]), d.nodeValueIds.InnerToOuter(i + 1) + offset)
  {
    seq(|d.nodes|, i requires 0 <= i < |d.nodes| => (Node(d.nodes[i]), d.nodeValueIds.InnerToOuter(i + 1) + offset))
  }

  function NumberedValue(d: Dictionary, offset: nat, i: nat): (Entry, nat)
    requires i < |d.values|
  {
    var id: nat := d.nodeValueIds.InnerToOuter(i + |d.nodes| + 1) + offset;
    (d.values[i], id)
  }

  function ValueRun(d: Dictionary, offset: nat): (r: seq<(Entry, nat)>)
    ensures |r| == |d.values|
    ensures forall i :: 0 <= i < |r| ==> r[i] == (d.values[i], d.nodeValueIds.InnerToOuter(i + |d.nodes| + 1) + offset)
  {
    seq(|d.values|, i requires 0 <= i < |d.values| => NumberedValue(d, offset, i))
  }

  function PredicateRun(d: Dictionary, offset: nat): (r: seq<(Str, nat)>)
    ensures |r| == |d.predicates|
    ensures forall i :: 0 <= i < |r| ==> r[i] == (d.predicates[i], d.predicateIds.InnerToOuter(i + 1) + offset)
  {
    seq(|d.predicates|, i requires 0 <= i < |d.predicates| => (d.predicates[i],
        d.predicateIds.InnerToOuter(i + 1) + offset))
  }

  /** `run` numbers the qualifying entries of `own` in ascending order, by ids above `offset`. */
  ghost predicate RunOf<K(!new)>(own: seq<K>, which: K -> bool, offset: nat, run: seq<(K, nat)>) {
    && IdsDistinct(run)
    && (forall i :: 0 <= i < |run| ==>
      offset < run[i].1 <= offset + |own| && own[run[i].1 - offset - 1] == run[i].0 && which(run[i].0))
    && (forall k :: 0 <= k < |own| && which(own[k]) ==> HasId(run, offset + k + 1))
  }

  lemma InnerToOuterDistinct(m: IdMap, n: nat, i: nat, j: nat)
    requires m.Permutes(n) && 1 <= i <= n && 1 <= j <= n && i != j
    ensures m.InnerToOuter(i) != m.InnerToOuter(j)
  {
    IdMapInverts(m, n, i);
    IdMapInverts(m, n, j);
  }

  lemma NodeRunOf(d: Dictionary, offset: nat)
    requires d.Valid()
    ensures |d.Outer()| == d.Count() && RunOf(d.Outer(), IsNode, offset, NodeRun(d, offset))
  {
    hide Dictionary.Outer, Dictionary.Valid, IdMap.InnerToOuter, IdMap.OuterToInner, IdMap.Permutes;
    var run := NodeRun(d, offset);
    ValuesAreValues(d);
    forall i, j | 0 <= i < j < |run| ensures run[i].1 != run[j].1 {
      MapsPermute(d);
      InnerToOuterDistinct(d.nodeValueIds, d.Count(), i + 1, j + 1);
    }
    forall i | 0 <= i < |run| ensures offset < run[i].1 <= offset + d.Count() &&
      d.Outer()[run[i].1 - offset - 1] == run[i].0 {
      OwnIdAt(d, i + 1);
    }
    forall k | 0 <= k < d.Count() && IsNode(d.Outer()[k]) ensures HasId(run, offset + k + 1) {
      var inner := InnerOf(d, k + 1);
      assert run[inner - 1].1 == offset + k + 1;
    }
  }

  /** Where the entry with an outer id is kept: nodes before values. */
  lemma InnerOf(d: Dictionary, id: nat) returns (inner: nat)
    requires d.Valid() && 1 <= id <= d.Count()
    ensures |d.Outer()| == d.Count() && 1 <= inner <= d.Count() && d.nodeValueIds.InnerToOuter(inner) == id
    ensures IsNode(d.Outer()[id - 1]) <==> inner <= |d.nodes|
  {
    hide Dictionary.Outer, Dictionary.Valid, Dictionary.Entries, IdMap.InnerToOuter, IdMap.OuterToInner, IdMap.Permutes;
    ValuesAreValues(d);
    MapsPermute(d);
    IdMapInverts(d.nodeValueIds, d.Count(), id);
    inner := d.nodeValueIds.OuterToInner(id);
    OwnIdAt(d, inner);
    EntryPlaces(d, inner);
  }

  lemma ValueRunOf(d: Dictionary, offset: nat)
    requires d.Valid()
    ensures |d.Outer()| == d.Count() && RunOf(d.Outer(), IsValue, offset, ValueRun(d, offset))
  {
    hide Dictionary.Outer, Dictionary.Valid, Dictionary.Entries, IdMap.InnerToOuter, IdMap.OuterToInner, IdMap.Permutes;
    var run, n := ValueRun(d, offset), |d.nodes|;
    ValuesAreValues(d);
    forall i, j | 0 <= i < j < |run| ensures run[i].1 != run[j].1 {
      MapsPermute(d);
      InnerToOuterDistinct(d.nodeValueIds, d.Count(), i + n + 1, j + n + 1);
    }
    forall i | 0 <= i < |run| ensures offset < run[i].1 <= offset + d.Count() &&
      d.Outer()[run[i].1 - offset - 1] == run[i].0 && IsValue(run[i].0) {
      OwnIdAt(d, i + n + 1);
      EntryPlaces(d, i + n + 1);
    }
    forall k | 0 <= k < d.Count() && IsValue(d.Outer()[k]) ensures HasId(run, offset + k + 1) {
      var inner := InnerOf(d, k + 1);
      assert run[inner - n - 1].1 == offset + k + 1;
    }
  }

  lemma PredicateRunOf(d: Dictionary, offset: nat)
    requires d.Valid()
    ensures |d.OuterPredicates()| == |d.predicates| &&
      RunOf(d.OuterPredicates(), Every, offset, PredicateRun(d, offset))
  {
    hide Dictionary.OuterPredicates, Dictionary.Valid, IdMap.InnerToOuter, IdMap.OuterToInner, IdMap.Permutes;
    var run, n := PredicateRun(d, offset), |d.predicates|;
    ValuesAreValues(d);
    MapsPermute(d);
    forall i, j | 0 <= i < j < |run| ensures run[i].1 != run[j].1 {
      InnerToOuterDistinct(d.predicateIds, n, i + 1, j + 1);
    }
    forall i | 0 <= i < |run| ensures offset < run[i].1 <= offset + n &&
      d.OuterPredicates()[run[i].1 - offset - 1] == run[i].0 && Every(run[i].0) {
      IdMapInverts(d.predicateIds, n, i + 1);
      OwnPredicateAt(d, d.predicateIds.InnerToOuter(i + 1));
    }
    forall k | 0 <= k < n && Every(d.OuterPredicates()[k]) ensures HasId(run, offset + k + 1) {
      IdMapInverts(d.predicateIds, n, k + 1);
      assert run[d.predicateIds.OuterToInner(k + 1) - 1].1 == offset + k + 1;
    }
  }

  /* ---- gathering ---- */

  /** The part of a run that is kept. */
  function KeptRun<K>(run: seq<(K, nat)>, keep: set<nat>): seq<(K, nat)> {
    if run == [] then []
    else KeptRun(run[..|run| - 1], keep) + (if run[|run| - 1].1 in keep then [run[|run| - 1]] else [])
  }

  lemma {:induction false} KeptElement<K>(run: seq<(K, nat)>, keep: set<nat>, x: (K, nat))
    ensures x in KeptRun(run, keep) <==> x in run && x.1 in keep
  {
    if run != [] {
      var init, last := run[..|run| - 1], run[|run| - 1];
      KeptElement(init, keep, x);
      assert run == init + [last];
    }
  }

  lemma {:induction false} KeptIdsDistinct<K>(run: seq<(K, nat)>, keep: set<nat>)
    requires IdsDistinct(run)
    ensures IdsDistinct(KeptRun(run, keep))
  {
    if run != [] {
      var init, last := run[..|run| - 1], run[|run| - 1];
      assert forall i :: 0 <= i < |init| ==> init[i] == run[i];
      KeptIdsDistinct(init, keep);
      var kept := KeptRun(init, keep);
      forall i | 0 <= i < |kept| ensures kept[i].1 != last.1 {
        KeptElement(init, keep, kept[i]);
      }
    }
  }

  lemma {:induction false} KeptRunWhole<K>(run: seq<(K, nat)>, keep: set<nat>)
    requires forall i :: 0 <= i < |run| ==> run[i].1 in keep
    ensures KeptRun(run, keep) == run
  {
    if run != [] {
      KeptRunWhole(run[..|run| - 1], keep);
      assert run == run[..|run| - 1] + [run[|run| - 1]];
    }
  }

  lemma KeptInRange<K(!new)>(own: seq<K>, which: K -> bool, keep: set<nat>, offset: nat, run: seq<(K, nat)>, i: nat)
    requires RunOf(own, which, offset, run) && i < |KeptRun(run, keep)|
    ensures var x := KeptRun(run, keep)[i];
      offset < x.1 <= offset + |own| && own[x.1 - offset - 1] == x.0 && which(x.0) && x.1 in keep
  {
    hide KeptRun, IdsDistinct;
    var x := KeptRun(run, keep)[i];
    KeptElement(run, keep, x);
    assert x in run;
  }

  lemma KeptHasId<K(!new)>(own: seq<K>, which: K -> bool, keep: set<nat>, offset: nat, run: seq<(K, nat)>, id: nat)
    requires RunOf(own, which, offset, run) && id in keep && offset < id <= offset + |own| &&
      which(own[id - offset - 1])
    ensures HasId(KeptRun(run, keep), id)
  {
    hide KeptRun, IdsDistinct;
    assert HasId(run, offset + (id - offset - 1) + 1);
    var i :| 0 <= i < |run| && run[i].1 == id;
    KeptElement(run, keep, run[i]);
  }

  lemma HasIdConcat<K>(a: seq<(K, nat)>, b: seq<(K, nat)>, id: nat)
    requires HasId(a, id) || HasId(b, id)
    ensures HasId(a + b, id)
  {
    if HasId(a, id) {
      var i :| 0 <= i < |a| && a[i].1 == id;
      assert (a + b)[i].1 == id;
    } else {
      var i :| 0 <= i < |b| && b[i].1 == id;
      assert (a + b)[|a| + i].1 == id;
    }
  }

  /** Adding what is kept of one more dictionary. */
  lemma NumbersMore<K(!new)>(table: seq<K>, own: seq<K>, which: K -> bool, keep: set<nat>, listed: seq<(K, nat)>,
      run: seq<(K, nat)>)
    requires Numbers(table, which, keep, listed) && RunOf(own, which, |table|, run)
    ensures Numbers(table + own, which, keep, listed + KeptRun(run, keep))
  {
    hide KeptRun, RunOf, HasId;
    var kept, all := KeptRun(run, keep), table + own;
    var more := listed + kept;
    forall i | 0 <= i < |kept| ensures |table| < kept[i].1 <= |all| && own[kept[i].1 - |table| - 1] == kept[i].0 &&
      which(kept[i].0) && kept[i].1 in keep {
      KeptInRange(own, which, keep, |table|, run, i);
    }
    RunIdsDistinct(own, which, |table|, run);
    KeptIdsDistinct(run, keep);
    forall id | id in keep && 1 <= id <= |all| && which(all[id - 1]) ensures HasId(more, id) {
      if id > |table| {
        KeptHasId(own, which, keep, |table|, run, id);
      }
      HasIdConcat(listed, kept, id);
    }
  }

  lemma RunIdsDistinct<K(!new)>(own: seq<K>, which: K -> bool, offset: nat, run: seq<(K, nat)>)
    requires RunOf(own, which, offset, run)
    ensures IdsDistinct(run)
  {
  }

  lemma NumbersNothing<K(!new)>(table: seq<K>, which: K -> bool, keep: set<nat>)
    requires forall id :: id in keep ==> |table| < id
    ensures Numbers(table, which, keep, [])
  {
  }

  lemma IdsDistinctIsDistinct<K>(listed: seq<(K, nat)>)
    requires IdsDistinct(listed)
    ensures Distinct(listed)
  {
  }

  /** In whatever order the entries are listed. */
  lemma NumbersPermuted<K(!new)>(table: seq<K>, which: K -> bool, keep: set<nat>, a: seq<(K, nat)>, b: seq<(K, nat)>)
    requires Numbers(table, which, keep, a) && multiset(a) == multiset(b)
    ensures Numbers(table, which, keep, b)
  {
    SameMultisetSameElements(a, b);
    forall i | 0 <= i < |b| ensures b[i] in a {
      assert b[i] in Elements(b);
    }
    forall i, j | 0 <= i < j < |b| ensures b[i].1 != b[j].1 {
      assert b[i] in a && b[j] in a;
      if b[i].1 == b[j].1 {
        assert b[i] == b[j];
        RepeatCount(b, i, j);
        IdsDistinctIsDistinct(a);
        DistinctCount(a, b[i]);
      }
    }
    forall id | id in keep && 1 <= id <= |table| && which(table[id - 1]) ensures HasId(b, id) {
      assert HasId(a, id);
      var i :| 0 <= i < |a| && a[i].1 == id;
      assert a[i] in Elements(b);
    }
  }

  /** Sorting what was gathered. */
  lemma NumbersSorted<K(!new)>(le: (K, K) -> bool, table: seq<K>, which: K -> bool, keep: set<nat>, a: seq<(K, nat)>,
      b: seq<(K, nat)>)
    requires TotalOrder(le)
    requires Numbers(table, which, keep, a) && Sorted(NumberedOrder(le), b) && multiset(b) == multiset(a)
    ensures Numbers(table, which, keep, b) && Ascending(NumberedOrder(le), b)
  {
    hide TotalOrder, Numbers, Sorted, NumberedOrder;
    NumbersPermuted(table, which, keep, a, b);
    NumbersDistinct(table, which, keep, a);
    SortedDistinctAscends(NumberedOrder(le), b, a);
  }

  lemma NumbersDistinct<K(!new)>(table: seq<K>, which: K -> bool, keep: set<nat>, a: seq<(K, nat)>)
    requires Numbers(table, which, keep, a)
    ensures Distinct(a) && IdsDistinct(a)
  {
  }

  /** Sorted nodes followed by sorted values list everything kept, in ascending order. */
  lemma NodesThenValues(table: seq<Entry>, keep: set<nat>, nodes: seq<(Entry, nat)>, values: seq<(Entry, nat)>)
    requires Numbers(table, IsNode, keep, nodes) && Numbers(table, IsValue, keep, values)
    requires Ascending(NumberedOrder(EntryOrdering()), nodes) && Ascending(NumberedOrder(EntryOrdering()), values)
    requires forall id :: id in keep ==> 1 <= id <= |table|
    ensures Lists(table, keep, nodes + values) && IdsDistinct(nodes + values)
    ensures Ascending(NumberedOrder(EntryOrdering()), nodes + values)
  {
    hide TotalOrder, NumberedOrder, EntryOrdering, HasId, Ascending, Lists, IdsDistinct, Numbers;
    NodesAndValues(table, keep, nodes, values);
    IdsOfBoth(table, keep, nodes, values);
    KindsOfBoth(table, keep, nodes, values);
    NodesFirst(nodes, values);
  }

  lemma NodesAndValues(table: seq<Entry>, keep: set<nat>, nodes: seq<(Entry, nat)>, values: seq<(Entry, nat)>)
    requires Numbers(table, IsNode, keep, nodes) && Numbers(table, IsValue, keep, values)
    requires forall id :: id in keep ==> 1 <= id <= |table|
    ensures Lists(table, keep, nodes + values)
  {
    hide HasId, IdsDistinct;
    var all := nodes + values;
    forall id | id in keep ensures exists i :: 0 <= i < |all| && all[i].1 == id {
      assert IsNode(table[id - 1]) || IsValue(table[id - 1]);
      HasIdConcat(nodes, values, id);
      HasIdMeans(all, id);
    }
  }

  lemma KindsOfBoth(table: seq<Entry>, keep: set<nat>, nodes: seq<(Entry, nat)>, values: seq<(Entry, nat)>)
    requires Numbers(table, IsNode, keep, nodes) && Numbers(table, IsValue, keep, values)
    ensures forall i :: 0 <= i < |nodes| ==> IsNode(nodes[i].0)
    ensures forall i :: 0 <= i < |values| ==> IsValue(values[i].0)
  {
    hide HasId, IdsDistinct;
  }

  lemma IdsOfBoth(table: seq<Entry>, keep: set<nat>, nodes: seq<(Entry, nat)>, values: seq<(Entry, nat)>)
    requires Numbers(table, IsNode, keep, nodes) && Numbers(table, IsValue, keep, values)
    ensures IdsDistinct(nodes + values)
  {
    hide HasId;
    forall i, j | 0 <= i < |nodes| && 0 <= j < |values| ensures nodes[i].1 != values[j].1 {
      assert IsNode(nodes[i].0) && IsValue(values[j].0);
    }
  }

  lemma HasIdMeans<K>(all: seq<(K, nat)>, id: nat)
    requires HasId(all, id)
    ensures exists i :: 0 <= i < |all| && all[i].1 == id
  {
  }

  lemma NodesFirst(nodes: seq<(Entry, nat)>, values: seq<(Entry, nat)>)
    requires Ascending(NumberedOrder(EntryOrdering()), nodes) && Ascending(NumberedOrder(EntryOrdering()), values)
    requires forall i :: 0 <= i < |nodes| ==> IsNode(nodes[i].0)
    requires forall i :: 0 <= i < |values| ==> IsValue(values[i].0)
    ensures Ascending(NumberedOrder(EntryOrdering()), nodes + values)
  {
    hide TotalOrder;
    forall i, j | 0 <= i < |nodes| && 0 <= j < |values| ensures NumberedOrder(EntryOrdering())(nodes[i], values[j]) &&
      nodes[i] != values[j] {
      assert IsNode(nodes[i].0) && IsValue(values[j].0) && EntryLe(nodes[i].0, values[j].0);
    }
  }

  lemma NumbersIsLists<K(!new)>(table: seq<K>, keep: set<nat>, listed: seq<(K, nat)>)
    requires Numbers(table, Every, keep, listed)
    requires forall id :: id in keep ==> 1 <= id <= |table|
    ensures Lists(table, keep, listed) && IdsDistinct(listed)
  {
    forall id | id in keep ensures exists i :: 0 <= i < |listed| && listed[i].1 == id {
      assert Every(table[id - 1]) && HasId(listed, id);
    }
  }

  /* ---- several dictionaries ---- */

  ghost predicate AllValid(ds: seq<Dictionary>) {
    forall i :: 0 <= i < |ds| ==> ds[i].Valid()
  }

  /** The entries of several dictionaries, lowest layer first, by id. */
  ghost function Outers(ds: seq<Dictionary>): seq<Entry>
    requires AllValid(ds)
  {
    if ds == [] then [] else Outers(ds[..|ds| - 1]) + ds[|ds| - 1].Outer()
  }

  ghost function OuterPredicatesOf(ds: seq<Dictionary>): seq<Str>
    requires AllValid(ds)
  {
    if ds == [] then [] else OuterPredicatesOf(ds[..|ds| - 1]) + ds[|ds| - 1].OuterPredicates()
  }

  lemma OutersNext(ds: seq<Dictionary>, i: nat)
    requires AllValid(ds) && i < |ds|
    ensures ds[i].Valid() && |ds[i].Outer()| == ds[i].Count() && |ds[i].OuterPredicates()| == |ds[i].predicates|
    ensures Outers(ds[..i + 1]) == Outers(ds[..i]) + ds[i].Outer()
    ensures OuterPredicatesOf(ds[..i + 1]) == OuterPredicatesOf(ds[..i]) + ds[i].OuterPredicates()
  {
    hide Dictionary.Valid, Dictionary.Outer, Dictionary.OuterPredicates;
    ValuesAreValues(ds[i]);
    assert ds[..i + 1][..i] == ds[..i];
  }

  lemma {:induction false} OutersAppend(ds: seq<Dictionary>, more: seq<Dictionary>)
    requires AllValid(ds) && AllValid(more)
    ensures Outers(ds + more) == Outers(ds) + Outers(more)
    ensures OuterPredicatesOf(ds + more) == OuterPredicatesOf(ds) + OuterPredicatesOf(more)
  {
    hide Dictionary.Valid, Dictionary.Outer, Dictionary.OuterPredicates;
    if more == [] {
      assert ds + more == ds;
    } else {
      assert (ds + more)[..|ds + more| - 1] == ds + more[..|more| - 1];
      OutersAppend(ds, more[..|more| - 1]);
    }
  }

  /** One dictionary for every layer, the layer's own last. */
  ghost function StackDicts(layer: InternalLayer): (ds: seq<Dictionary>)
    ensures |ds| == Height(layer) && ds[|ds| - 1] == layer.Dict()
    decreases layer.Size()
  {
    (match layer.ImmediateParent() case None => [] case Some(p) => StackDicts(p)) + [layer.Dict()]
  }

  /** The number of layers. */
  ghost function Height(layer: InternalLayer): (n: nat)
    ensures n > 0
    decreases layer.Size()
  {
    match layer.ImmediateParent() case None => 1 case Some(p) => Height(p) + 1
  }

  /** The dictionaries of a stack, lowest layer first (`immediate_layers`). */
  method ImmediateDicts(layer: InternalLayer) returns (ds: seq<Dictionary>)
    requires DictsValid(layer)
    ensures AllValid(ds) && Outers(ds) == Table(layer) && OuterPredicatesOf(ds) == PredicateTable(layer)
    ensures ds == StackDicts(layer)
  {
    hide Dictionary.Valid, Dictionary.Outer, Dictionary.OuterPredicates, Table, PredicateTable, DictsValid, Outers,
      OuterPredicatesOf, StackDicts;
    ds := [];
    var l := Some(layer);
    NoOuters();
    while l.Some?
      invariant AllValid(ds) && (l.Some? ==> DictsValid(l.value))
      invariant (if l.Some? then Table(l.value) else []) + Outers(ds) == Table(layer)
      invariant (if l.Some? then PredicateTable(l.value) else []) + OuterPredicatesOf(ds) == PredicateTable(layer)
      invariant StackDicts(layer) == (if l.Some? then StackDicts(l.value) else []) + ds
      decreases if l.Some? then 1 + l.value.Size() else 0
    {
      DictionaryStep(l.value, ds);
      StackDictsStep(l.value, ds);
      ds := [l.value.Dict()] + ds;
      l := l.value.ImmediateParent();
    }
  }

  lemma StackDictsStep(l: InternalLayer, ds: seq<Dictionary>)
    ensures StackDicts(l) + ds == (match l.ImmediateParent() case None => [] case Some(p) => StackDicts(p)) +
      ([l.Dict()] + ds)
  {
  }

  /** Passing from a layer to its parent, if it has one. */
  lemma DictionaryStep(l: InternalLayer, ds: seq<Dictionary>)
    requires DictsValid(l) && AllValid(ds)
    ensures AllValid([l.Dict()] + ds) && (l.ImmediateParent().Some? ==> DictsValid(l.ImmediateParent().value))
    ensures (if l.ImmediateParent().Some? then Table(l.ImmediateParent().value) else []) + Outers([l.Dict()] + ds) ==
      Table(l) + Outers(ds)
    ensures (if l.ImmediateParent().Some? then PredicateTable(l.ImmediateParent().value)
      else []) + OuterPredicatesOf([l.Dict()] + ds)
      == PredicateTable(l) + OuterPredicatesOf(ds)
  {
    hide Dictionary.Valid, Dictionary.Outer, Dictionary.OuterPredicates, Table, PredicateTable, DictsValid, Outers,
      OuterPredicatesOf;
    TableStep(l);
    OneOuter(l.Dict());
    OutersAppend([l.Dict()], ds);
    var below := l.ImmediateParent();
    Regroup(if below.Some? then Table(below.value) else [], l.Dict().Outer(), Outers(ds));
    Regroup(if below.Some? then PredicateTable(below.value) else [], l.Dict().OuterPredicates(), OuterPredicatesOf(ds));
  }

  lemma Regroup<T>(a: seq<T>, b: seq<T>, c: seq<T>)
    ensures a + b + c == a + (b + c) && (a == [] ==> a + b == b)
  {
  }

  lemma NoOuters()
    ensures Outers([]) == [] && OuterPredicatesOf([]) == []
  {
  }

  lemma OneOuter(d: Dictionary)
    requires d.Valid()
    ensures AllValid([d]) && Outers([d]) == d.Outer() && OuterPredicatesOf([d]) == d.OuterPredicates()
  {
    hide Dictionary.Valid, Dictionary.Outer, Dictionary.OuterPredicates;
    assert [d][..0] == [];
  }
}
