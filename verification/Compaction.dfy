/** From the entries still in use to the dictionary of a new layer and the conversion of old
    ids to new ones. Committing, squashing and squashing up to an ancestor all end this way. */
module Compaction {
  import opened Sorting
  import opened Triples
  import opened Dictionaries
  import opened StringTriples
  import opened Remapping
  import opened Numberings
  import opened Rollups

  /** Every triple over kept ids, and ids below the base, says through the new tables what it
      said through the old ones. */
  ghost predicate Converts(full: Tables, new_: Tables, entries: Renumbering, predicates: Renumbering, keep: set<nat>,
      keepPredicates: set<nat>) {
    forall t :: Uses(t, entries.base, keep, predicates.base, keepPredicates) ==>
      SaysTheSame(full, new_, t, RemapTriple(entries, predicates, t))
  }

  /** The entry of some kept id. */
  ghost predicate Kept<K>(table: seq<K>, keep: set<nat>, k: K) {
    exists id :: id in keep && 1 <= id <= |table| && table[id - 1] == k
  }

  /** What compaction yields. */
  ghost predicate Compacts(full: Tables, new_: Tables, d: Dictionary, entries: Renumbering, predicates: Renumbering,
      keep: set<nat>, keepPredicates: set<nat>) {
    && entries.base <= |full.entries| && predicates.base <= |full.predicates|
    && d.Valid() && d.nodeValueIds == IdMap(None) && d.predicateIds == IdMap(None)
    && d.Outer() == d.Entries() && d.OuterPredicates() == d.predicates
    && new_ == Tables(full.entries[..entries.base] + d.Entries(), full.predicates[..predicates.base] + d.predicates)
    && new_.Distinct()
    && Converts(full, new_, entries, predicates, keep, keepPredicates)
    && (forall e :: e in d.Entries() <==> Kept(full.entries, keep, e))
    && (forall p :: p in d.predicates <==> Kept(full.predicates, keepPredicates, p))
  }

  ghost predicate Above(keep: set<nat>, base: nat, table: nat) {
    forall id :: id in keep ==> base < id <= table
  }

  lemma UnmappedPermutes(n: nat)
    ensures IdMap(None).Permutes(n)
  {
  }

  lemma UnmappedOuter<T>(es: seq<T>)
    ensures IdMap(None).Permutes(|es|) && Permuted(es, IdMap(None)) == es
  {
    UnmappedPermutes(|es|);
    forall i | 0 <= i < |es| ensures Permuted(es, IdMap(None))[i] == es[i] {
      assert IdMap(None).OuterToInner(i + 1) == i + 1;
    }
  }

  lemma KeysAreKept<K(!new)>(table: seq<K>, keep: set<nat>, listed: seq<(K, nat)>, k: K)
    requires Lists(table, keep, listed)
    ensures k in Keys(listed) <==> Kept(table, keep, k)
  {
    if k in Keys(listed) {
      var i :| 0 <= i < |listed| && Keys(listed)[i] == k;
      assert listed[i].1 in keep && table[listed[i].1 - 1] == k;
    }
    if Kept(table, keep, k) {
      var id :| id in keep && 1 <= id <= |table| && table[id - 1] == k;
      var i :| 0 <= i < |listed| && listed[i].1 == id;
      assert Keys(listed)[i] == k;
    }
  }

  lemma ListedInMap<K(!new)>(table: seq<K>, keep: set<nat>, listed: seq<(K, nat)>, base: nat, origin: nat, size: nat)
    requires Lists(table, keep, listed) && Above(keep, base, |table|) && origin <= base + 1 && |table| < origin + size
    ensures InMap(listed, origin, size)
  {
    forall i | 0 <= i < |listed| ensures origin <= listed[i].1 < origin + size {
      assert listed[i].1 in keep;
    }
  }

  lemma AscendingIsDistinct<T(!new)>(le: (T, T) -> bool, s: seq<T>)
    requires Ascending(le, s)
    ensures Distinct(s)
  {
  }

  lemma ConcatParts(nodes: seq<(Entry, nat)>, values: seq<(Entry, nat)>, origin: nat, size: nat)
    requires InMap(nodes + values, origin, size) && IdsDistinct(nodes + values)
    ensures InMap(nodes, origin, size) && InMap(values, origin, size) && IdsDistinct(nodes) && IdsDistinct(values)
    ensures forall i, j :: 0 <= i < |nodes| && 0 <= j < |values| ==> nodes[i].1 != values[j].1
  {
    var all := nodes + values;
    assert forall i :: 0 <= i < |nodes| ==> nodes[i] == all[i];
    assert forall i :: 0 <= i < |values| ==> values[i] == all[|nodes| + i];
  }

  /** Filling in the values leaves the nodes alone. */
  lemma MapsConcat(first: seq<nat>, final: seq<nat>, nodes: seq<(Entry, nat)>, values: seq<(Entry, nat)>, origin: nat,
      base: nat)
    requires MapsListed(first, nodes, origin, base) && MapsListed(final, values, origin, base + |nodes|) &&
      |first| == |final|
    requires forall i, j :: 0 <= i < |nodes| && 0 <= j < |values| ==> nodes[i].1 != values[j].1
    requires forall k :: 0 <= k < |final| && (forall i :: 0 <= i < |values| ==> values[i].1 != origin + k) ==>
      final[k] == first[k]
    ensures MapsListed(final, nodes + values, origin, base)
  {
    var all := nodes + values;
    forall i | 0 <= i < |all| ensures 0 <= all[i].1 - origin < |final| && final[all[i].1 - origin] == base + i {
      if i < |nodes| {
        var k := nodes[i].1 - origin;
        assert first[k] == base + i;
        assert forall j :: 0 <= j < |values| ==> values[j].1 != origin + k;
      } else {
        assert all[i] == values[i - |nodes|];
      }
    }
  }

  /** Fills the conversion map for nodes, then for values after them. */
  method ConversionMap(nodes: seq<(Entry, nat)>, values: seq<(Entry, nat)>, base: nat, origin: nat,
      size: nat) returns (entries: Renumbering)
    requires InMap(nodes + values, origin, size) && IdsDistinct(nodes + values)
    ensures entries.base == base && entries.origin == origin
    ensures MapsListed(entries.idMap, nodes + values, origin, base + 1)
  {
    hide MapsListed, InMap, IdsDistinct;
    ConcatParts(nodes, values, origin, size);
    var idMap := new nat[size](_ => 0);
    FillMap(idMap, nodes, origin, base + 1);
    ghost var first := idMap[..];
    FillMap(idMap, values, origin, base + |nodes| + 1);
    MapsConcat(first, idMap[..], nodes, values, origin, base + 1);
    entries := Renumbering(idMap[..], base, origin);
  }

  method PredicateMap(listed: seq<(Str, nat)>, base: nat, origin: nat, size: nat) returns (predicates: Renumbering)
    requires InMap(listed, origin, size) && IdsDistinct(listed)
    ensures predicates.base == base && predicates.origin == origin
    ensures MapsListed(predicates.idMap, listed, origin, base + 1)
  {
    var idMap := new nat[size](_ => 0);
    FillMap(idMap, listed, origin, base + 1);
    predicates := Renumbering(idMap[..], base, origin);
  }

  lemma ConvertsAll(full: Tables, keep: set<nat>, listed: seq<(Entry, nat)>, entries: Renumbering,
      keepPredicates: set<nat>, listedPredicates: seq<(Str, nat)>, predicates: Renumbering)
    requires entries.base <= |full.entries| && predicates.base <= |full.predicates|
    requires Lists(full.entries, keep, listed) && MapsListed(entries.idMap, listed, entries.origin, entries.base + 1)
    requires Lists(full.predicates, keepPredicates, listedPredicates)
    requires MapsListed(predicates.idMap, listedPredicates, predicates.origin, predicates.base + 1)
    ensures Converts(full, Tables(Compacted(full.entries, entries.base, listed),
      Compacted(full.predicates, predicates.base, listedPredicates)), entries, predicates, keep, keepPredicates)
  {
    hide Lists, MapsListed, Compacted, SaysTheSame, RemapTriple;
    forall t | Uses(t, entries.base, keep, predicates.base, keepPredicates)
      ensures SaysTheSame(full, Tables(Compacted(full.entries, entries.base, listed),
        Compacted(full.predicates, predicates.base, listedPredicates)), t, RemapTriple(entries, predicates, t))
    {
      RenumberingPreserves(full, {t}, keep, listed, entries, keepPredicates, listedPredicates, predicates);
    }
  }

  /** Sorts the kept entries, gives them their final ids and makes them a dictionary. */
  method Compact(nodes: seq<(Entry, nat)>, values: seq<(Entry, nat)>, predicates: seq<(Str, nat)>,
      base: nat, origin: nat, size: nat, predicateBase: nat, predicateOrigin: nat, predicateSize: nat,
      ghost full: Tables, ghost keep: set<nat>, ghost keepPredicates: set<nat>)
    returns (d: Dictionary, entryIds: Renumbering, predicateIds: Renumbering, ghost new_: Tables)
    requires full.Distinct() && base <= |full.entries| && predicateBase <= |full.predicates|
    requires Above(keep, base, |full.entries|) && Above(keepPredicates, predicateBase, |full.predicates|)
    requires Numbers(full.entries, IsNode, keep, nodes) && Numbers(full.entries, IsValue, keep, values)
    requires Numbers(full.predicates, Every, keepPredicates, predicates)
    requires origin <= base + 1 && |full.entries| < origin + size
    requires predicateOrigin <= predicateBase + 1 && |full.predicates| < predicateOrigin + predicateSize
    ensures entryIds.base == base && predicateIds.base == predicateBase
    ensures Compacts(full, new_, d, entryIds, predicateIds, keep, keepPredicates)
  {
    hide Numbers, TotalOrder, EntryOrdering, StrOrdering, NumberedOrder, Sorted, Ascending, Lists, MapsListed,
      Converts, Dictionary.Valid, Dictionary.Outer, Dictionary.OuterPredicates, Dictionary.Entries, Distinct,
      Compacted, IdsDistinct, InMap, IdMap.Permutes;
    var ns := Sort(NumberedOrder(EntryOrdering()), nodes);
    var vs := Sort(NumberedOrder(EntryOrdering()), values);
    var ps := Sort(NumberedOrder(StrOrdering()), predicates);
    SortIsSorted(NumberedOrder(EntryOrdering()), nodes);
    SortIsSorted(NumberedOrder(EntryOrdering()), values);
    SortIsSorted(NumberedOrder(StrOrdering()), predicates);
    NumbersSorted(EntryOrdering(), full.entries, IsNode, keep, nodes, ns);
    NumbersSorted(EntryOrdering(), full.entries, IsValue, keep, values, vs);
    NumbersSorted(StrOrdering(), full.predicates, Every, keepPredicates, predicates, ps);
    SortedLists(full, keep, keepPredicates, ns, vs, ps);
    ListedInMap(full.entries, keep, ns + vs, base, origin, size);
    ListedInMap(full.predicates, keepPredicates, ps, predicateBase, predicateOrigin, predicateSize);
    entryIds := ConversionMap(ns, vs, base, origin, size);
    predicateIds := PredicateMap(ps, predicateBase, predicateOrigin, predicateSize);
    ConvertsAll(full, keep, ns + vs, entryIds, keepPredicates, ps, predicateIds);
    d := Dictionary(Strings(Keys(ns)), Keys(ps), Keys(vs), IdMap(None), IdMap(None));
    new_ := Tables(Compacted(full.entries, base, ns + vs), Compacted(full.predicates, predicateBase, ps));
    NewDictionary(full, keep, keepPredicates, ns, vs, ps, d);
    NewTables(full, keep, keepPredicates, base, predicateBase, ns + vs, ps, d);
  }

  lemma SortedLists(full: Tables, keep: set<nat>, keepPredicates: set<nat>, ns: seq<(Entry, nat)>,
      vs: seq<(Entry, nat)>, ps: seq<(Str, nat)>)
    requires Numbers(full.entries, IsNode, keep, ns) && Numbers(full.entries, IsValue, keep, vs) &&
      Numbers(full.predicates, Every, keepPredicates, ps)
    requires Above(keep, 0, |full.entries|) && Above(keepPredicates, 0, |full.predicates|)
    requires Ascending(NumberedOrder(EntryOrdering()), ns) && Ascending(NumberedOrder(EntryOrdering()), vs)
    ensures Lists(full.entries, keep, ns + vs) && IdsDistinct(ns + vs) &&
      Ascending(NumberedOrder(EntryOrdering()), ns + vs)
    ensures Lists(full.predicates, keepPredicates, ps) && IdsDistinct(ps)
  {
    hide Numbers, TotalOrder, EntryOrdering, NumberedOrder, Ascending, Lists, IdsDistinct;
    NodesThenValues(full.entries, keep, ns, vs);
    NumbersIsLists(full.predicates, keepPredicates, ps);
  }

  lemma NewDictionary(full: Tables, keep: set<nat>, keepPredicates: set<nat>, ns: seq<(Entry, nat)>,
      vs: seq<(Entry, nat)>, ps: seq<(Str, nat)>, d: Dictionary)
    requires full.Distinct()
    requires Numbers(full.entries, IsNode, keep, ns) && Numbers(full.entries, IsValue, keep, vs) &&
      Numbers(full.predicates, Every, keepPredicates, ps)
    requires Ascending(NumberedOrder(EntryOrdering()), ns) && Ascending(NumberedOrder(EntryOrdering()), vs) &&
      Ascending(NumberedOrder(StrOrdering()), ps)
    requires d == Dictionary(Strings(Keys(ns)), Keys(ps), Keys(vs), IdMap(None), IdMap(None))
    ensures d.Valid() && d.Entries() == Keys(ns + vs) && d.Outer() == d.Entries() && d.OuterPredicates() == d.predicates
  {
    hide Numbers, TotalOrder, EntryOrdering, StrOrdering, NumberedOrder, Ascending, Distinct, IdMap.Permutes, Permuted;
    NumbersKeysAscend(EntryOrdering(), full.entries, IsNode, keep, ns);
    NumbersKeysAscend(EntryOrdering(), full.entries, IsValue, keep, vs);
    NumbersKeysAscend(StrOrdering(), full.predicates, Every, keepPredicates, ps);
    WhichQualify(full.entries, IsNode, keep, ns);
    WhichQualify(full.entries, IsValue, keep, vs);
    UnmappedPermutes(d.Count());
    UnmappedPermutes(|d.predicates|);
    AssembledDictionary(d, ns, vs);
    UnmappedOuter(Keys(ns + vs));
    UnmappedOuter(d.predicates);
    OuterPredicatesAre(d);
  }

  lemma NewTables(full: Tables, keep: set<nat>, keepPredicates: set<nat>, base: nat, predicateBase: nat,
      listed: seq<(Entry, nat)>, ps: seq<(Str, nat)>, d: Dictionary)
    requires full.Distinct() && base <= |full.entries| && predicateBase <= |full.predicates|
    requires Above(keep, base, |full.entries|) && Above(keepPredicates, predicateBase, |full.predicates|)
    requires Lists(full.entries, keep, listed) && Lists(full.predicates, keepPredicates, ps)
    requires Ascending(NumberedOrder(EntryOrdering()), listed) && Ascending(NumberedOrder(StrOrdering()), ps)
    requires d.Entries() == Keys(listed) && d.predicates == Keys(ps)
    ensures Compacted(full.entries, base, listed) == full.entries[..base] + d.Entries()
    ensures Compacted(full.predicates, predicateBase, ps) == full.predicates[..predicateBase] + d.predicates
    ensures Tables(Compacted(full.entries, base, listed), Compacted(full.predicates, predicateBase, ps)).Distinct()
    ensures forall e :: e in d.Entries() <==> Kept(full.entries, keep, e)
    ensures forall p :: p in d.predicates <==> Kept(full.predicates, keepPredicates, p)
  {
    hide Lists, TotalOrder, EntryOrdering, StrOrdering, NumberedOrder, Ascending, Distinct, Dictionary.Entries, Kept;
    KeysAscend(EntryOrdering(), full.entries, keep, listed);
    KeysAscend(StrOrdering(), full.predicates, keepPredicates, ps);
    AscendingIsDistinct(EntryOrdering(), Keys(listed));
    AscendingIsDistinct(StrOrdering(), Keys(ps));
    CompactedDistinct(full.entries, base, keep, listed);
    CompactedDistinct(full.predicates, predicateBase, keepPredicates, ps);
    forall e ensures e in d.Entries() <==> Kept(full.entries, keep, e) {
      KeysAreKept(full.entries, keep, listed, e);
    }
    forall p ensures p in d.predicates <==> Kept(full.predicates, keepPredicates, p) {
      KeysAreKept(full.predicates, keepPredicates, ps, p);
    }
  }
}
