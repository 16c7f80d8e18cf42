/** Keeping some of the entries of an id table, sorting them and renumbering the triples that
    use them: what committing a layer and squashing a stack have in common. */
module Remapping {
  import opened Sorting
  import opened Triples
  import opened Dictionaries
  import opened StringTriples

  /** Sorts numbered entries by entry, then by number. */
  function NumberedOrder<K(==,!new)>(le: (K, K) -> bool): (order: ((K, nat), (K, nat)) -> bool)
    requires TotalOrder(le)
    ensures TotalOrder(order)
    ensures forall a: (K, nat), b: (K, nat) :: order(a, b) == if a.0 == b.0 then a.1 <= b.1 else le(a.0, b.0)
  {
    var order := (a: (K, nat), b: (K, nat)) => if a.0 == b.0 then a.1 <= b.1 else le(a.0, b.0);
    NumberedOrderTotal(le, order);
    order
  }

  lemma NumberedOrderTotal<K(!new)>(le: (K, K) -> bool, order: ((K, nat), (K, nat)) -> bool)
    requires TotalOrder(le)
    requires forall a: (K, nat), b: (K, nat) :: order(a, b) == if a.0 == b.0 then a.1 <= b.1 else le(a.0, b.0)
    ensures TotalOrder(order)
  {
    forall a: (K, nat), b: (K, nat) | order(a, b) && order(b, a) ensures a == b {
      assert a.0 != b.0 ==> le(a.0, b.0) && le(b.0, a.0);
    }
    forall a: (K, nat), b: (K, nat), c: (K, nat) | order(a, b) && order(b, c) ensures order(a, c) {
      assert le(a.0, a.0) && le(a.0, b.0) && le(b.0, c.0);
      assert le(a.0, c.0);
      if a.0 == c.0 { assert a.0 == b.0; }
    }
    forall a: (K, nat), b: (K, nat) ensures order(a, b) || order(b, a) {
      assert le(a.0, b.0) || le(b.0, a.0);
    }
  }

  /** `listed` holds exactly the kept ids, each with its entry. */
  ghost predicate Lists<K(!new)>(table: seq<K>, keep: set<nat>, listed: seq<(K, nat)>) {
    && (forall i :: 0 <= i < |listed| ==> listed[i].1 in keep)
    && (forall i :: 0 <= i < |listed| ==> 1 <= listed[i].1 <= |table| && table[listed[i].1 - 1] == listed[i].0)
    && (forall id :: id in keep ==> exists i :: 0 <= i < |listed| && listed[i].1 == id)
  }

  function Keys<K>(listed: seq<(K, nat)>): (ks: seq<K>)
    ensures |ks| == |listed| && forall i :: 0 <= i < |ks| ==> ks[i] == listed[i].0
  {
    seq(|listed|, i requires 0 <= i < |listed| => listed[i].0)
  }

  /** The table after keeping the first `base` entries and the listed ones. */
  function Compacted<K>(table: seq<K>, base: nat, listed: seq<(K, nat)>): (r: seq<K>)
    requires base <= |table|
    ensures |r| == base + |listed|
    ensures forall i :: 0 <= i < base ==> r[i] == table[i]
    ensures forall i :: 0 <= i < |listed| ==> r[base + i] == listed[i].0
  {
    table[..base] + Keys(listed)
  }

  /** Sorted, entries of a table without repetition ascend, whatever their numbers. */
  lemma KeysAscend<K(!new)>(le: (K, K) -> bool, table: seq<K>, keep: set<nat>, listed: seq<(K, nat)>)
    requires TotalOrder(le) && Distinct(table) && Lists(table, keep, listed)
    requires Ascending(NumberedOrder(le), listed)
    ensures Ascending(le, Keys(listed))
  {
    hide TotalOrder;
    forall i, j | 0 <= i < j < |listed| ensures le(listed[i].0, listed[j].0) && listed[i].0 != listed[j].0 {
      assert NumberedOrder(le)(listed[i], listed[j]) && listed[i] != listed[j];
      assert table[listed[i].1 - 1] == listed[i].0 && table[listed[j].1 - 1] == listed[j].0;
    }
  }

  /** The kept entries are new to the part of the table that stays. */
  lemma CompactedDistinct<K(!new)>(table: seq<K>, base: nat, keep: set<nat>, listed: seq<(K, nat)>)
    requires Distinct(table) && base <= |table| && Lists(table, keep, listed) && Distinct(Keys(listed))
    requires forall id :: id in keep ==> base < id
    ensures Distinct(Compacted(table, base, listed))
  {
    hide Keys, Distinct;
    TakeDistinct(table, base);
    forall i, j | 0 <= i < base && 0 <= j < |Keys(listed)| ensures table[..base][i] != Keys(listed)[j] {
      KeyIsNew(table, base, keep, listed, i, j);
    }
    ConcatDistinct(table[..base], Keys(listed));
  }

  lemma KeyIsNew<K(!new)>(table: seq<K>, base: nat, keep: set<nat>, listed: seq<(K, nat)>, i: nat, j: nat)
    requires Distinct(table) && i < base <= |table| && Lists(table, keep, listed) && j < |listed|
    requires forall id :: id in keep ==> base < id
    ensures table[i] != Keys(listed)[j]
  {
    var id := listed[j].1;
    assert id in keep && table[id - 1] == listed[j].0;
  }

  lemma TakeDistinct<K>(s: seq<K>, n: nat)
    requires Distinct(s) && n <= |s|
    ensures Distinct(s[..n])
  {
  }

  lemma ConcatDistinct<K>(a: seq<K>, b: seq<K>)
    requires Distinct(a) && Distinct(b)
    requires forall i, j :: 0 <= i < |a| && 0 <= j < |b| ==> a[i] != b[j]
    ensures Distinct(a + b)
  {
  }

  /* ---- the conversion map ---- */

  /** Entry `old - origin` of the map is the new id of `old`. */
  ghost predicate MapsListed<K>(idMap: seq<nat>, listed: seq<(K, nat)>, origin: nat, first: nat) {
    forall i :: 0 <= i < |listed| ==> 0 <= listed[i].1 - origin < |idMap| && idMap[listed[i].1 - origin] == first + i
  }

  ghost predicate InMap<K>(listed: seq<(K, nat)>, origin: nat, size: nat) {
    forall i :: 0 <= i < |listed| ==> origin <= listed[i].1 < origin + size
  }

  ghost predicate IdsDistinct<K>(listed: seq<(K, nat)>) {
    forall i, j :: 0 <= i < j < |listed| ==> listed[i].1 != listed[j].1
  }

  method FillMap<K>(idMap: array<nat>, listed: seq<(K, nat)>, origin: nat, first: nat)
    requires InMap(listed, origin, idMap.Length) && IdsDistinct(listed)
    modifies idMap
    ensures MapsListed(idMap[..], listed, origin, first)
    ensures forall k :: 0 <= k < idMap.Length && (forall i :: 0 <= i < |listed| ==> listed[i].1 != origin + k) ==>
      idMap[k] == old(idMap[k])
  {
    for i := 0 to |listed|
      invariant forall j :: 0 <= j < i ==> idMap[listed[j].1 - origin] == first + j
      invariant forall k :: 0 <= k < idMap.Length && (forall j :: 0 <= j < |listed| ==> listed[j].1 != origin + k) ==>
        idMap[k] == old(idMap[k])
    {
      idMap[listed[i].1 - origin] := first + i;
    }
  }

  /** The final id of an id: those of the parent stay. */
  function Remap(idMap: seq<nat>, base: nat, origin: nat, id: nat): nat {
    if id <= base then id else if 0 <= id - origin < |idMap| then idMap[id - origin] else 0
  }

  /** A kept id, and an id that stays, still names the entry it named. */
  lemma RemapKeeps<K(!new)>(table: seq<K>, base: nat, keep: set<nat>, listed: seq<(K, nat)>, idMap: seq<nat>,
      origin: nat, id: nat)
    requires base <= |table| && Lists(table, keep, listed) && MapsListed(idMap, listed, origin, base + 1)
    requires 1 <= id && (id <= base || id in keep)
    ensures id <= |table|
    ensures var r := Remap(idMap, base, origin, id);
      1 <= r <= base + |listed| && Compacted(table, base, listed)[r - 1] == table[id - 1]
  {
    hide Compacted;
    if id > base {
      var i :| 0 <= i < |listed| && listed[i].1 == id;
      KeptAt(table, base, keep, listed, i);
      assert idMap[id - origin] == base + 1 + i;
    } else {
      StaysAt(table, base, listed, id - 1);
    }
  }

  lemma StaysAt<K>(table: seq<K>, base: nat, listed: seq<(K, nat)>, i: nat)
    requires i < base <= |table|
    ensures Compacted(table, base, listed)[i] == table[i]
  {
  }

  lemma KeptAt<K(!new)>(table: seq<K>, base: nat, keep: set<nat>, listed: seq<(K, nat)>, i: nat)
    requires base <= |table| && Lists(table, keep, listed) && i < |listed|
    ensures 1 <= listed[i].1 <= |table| && Compacted(table, base, listed)[base + i] == table[listed[i].1 - 1]
  {
    assert table[listed[i].1 - 1] == listed[i].0;
  }

  /* ---- renumbering triples ---- */

  /** How one id space is renumbered. */
  datatype Renumbering = Renumbering(idMap: seq<nat>, base: nat, origin: nat)

  function RemapTriple(entries: Renumbering, predicates: Renumbering, t: Triple): Triple {
    Triple(Remap(entries.idMap, entries.base, entries.origin, t.s),
           Remap(predicates.idMap, predicates.base, predicates.origin, t.p),
           Remap(entries.idMap, entries.base, entries.origin, t.o))
  }

  /** The renumbering takes every wanted triple to one that says the same through the new tables. */
  ghost predicate Preserves(entries: Renumbering, predicates: Renumbering, old_: Tables, new_: Tables,
      wanted: set<Triple>) {
    forall t :: t in wanted ==> SaysTheSame(old_, new_, t, RemapTriple(entries, predicates, t))
  }

  predicate SaysTheSame(old_: Tables, new_: Tables, t: Triple, u: Triple) {
    old_.Knows(t) && new_.Knows(u) && Decode(new_, u) == Decode(old_, t)
  }

  /** Every id a triple uses is kept or stays. */
  predicate Uses(t: Triple, base: nat, keep: set<nat>, basePredicates: nat, keepPredicates: set<nat>) {
    && t.IsReal()
    && (t.s <= base || t.s in keep) && (t.o <= base || t.o in keep)
    && (t.p <= basePredicates || t.p in keepPredicates)
  }

  function RemapAll(entries: Renumbering, predicates: Renumbering, ts: seq<Triple>): (r: seq<Triple>)
    ensures |r| == |ts| && forall i :: 0 <= i < |r| ==> r[i] == RemapTriple(entries, predicates, ts[i])
  {
    seq(|ts|, i requires 0 <= i < |ts| => RemapTriple(entries, predicates, ts[i]))
  }

  /** Renumbers triples one by one, then sorts them. */
  method RenumberAndSort(entries: Renumbering, predicates: Renumbering, ts: seq<Triple>) returns (r: seq<Triple>)
    ensures Sorted(SubjectOrder(), r) && multiset(r) == multiset(RemapAll(entries, predicates, ts))
  {
    hide TotalOrder, Sorted;
    var mapped: seq<Triple> := [];
    for i := 0 to |ts|
      invariant |mapped| == i && forall j :: 0 <= j < i ==> mapped[j] == RemapTriple(entries, predicates, ts[j])
    {
      mapped := mapped + [RemapTriple(entries, predicates, ts[i])];
    }
    assert mapped == RemapAll(entries, predicates, ts);
    SortIsSorted(SubjectOrder(), mapped);
    r := Sort(SubjectOrder(), mapped);
  }

  /** Renumbered triples say what the originals said, and stay distinct. */
  lemma RenumberedMeaning(entries: Renumbering, predicates: Renumbering, old_: Tables, new_: Tables, ts: seq<Triple>)
    requires old_.Distinct() && Preserves(entries, predicates, old_, new_, Elements(ts)) && Distinct(ts)
    ensures var r := RemapAll(entries, predicates, ts);
      && Distinct(r) && KnowsAll(new_, Elements(r)) && KnowsAll(old_, Elements(ts))
      && DecodeAll(new_, Elements(r)) == DecodeAll(old_, Elements(ts))
  {
    hide Tables.Distinct, Tables.Knows, Decode, RemapTriple;
    var r := RemapAll(entries, predicates, ts);
    forall i | 0 <= i < |r| ensures SaysTheSame(old_, new_, ts[i], r[i]) {
      assert ts[i] in Elements(ts);
    }
    forall i, j | 0 <= i < j < |r| ensures r[i] != r[j] {
      if r[i] == r[j] {
        DecodeInjective(old_, ts[i], ts[j]);
      }
    }
    forall u | u in Elements(r) ensures new_.Knows(u) && Decode(new_, u) in DecodeAll(old_, Elements(ts)) {
      var i :| 0 <= i < |r| && r[i] == u;
      assert ts[i] in Elements(ts);
    }
    forall t | t in Elements(ts) ensures Decode(old_, t) in DecodeAll(new_, Elements(r)) {
      var i :| 0 <= i < |ts| && ts[i] == t;
      assert r[i] in Elements(r);
    }
  }

  /** The two conversion maps together preserve every triple over kept ids. */
  lemma RenumberingPreserves(
      old_: Tables, ts: set<Triple>,
      keep: set<nat>, listed: seq<(Entry, nat)>, entries: Renumbering,
      keepPredicates: set<nat>, listedPredicates: seq<(Str, nat)>, predicates: Renumbering)
    requires entries.base <= |old_.entries| && predicates.base <= |old_.predicates|
    requires Lists(old_.entries, keep, listed) && MapsListed(entries.idMap, listed, entries.origin, entries.base + 1)
    requires Lists(old_.predicates, keepPredicates, listedPredicates)
    requires MapsListed(predicates.idMap, listedPredicates, predicates.origin, predicates.base + 1)
    requires forall t :: t in ts ==> Uses(t, entries.base, keep, predicates.base, keepPredicates)
    ensures Preserves(entries, predicates, old_,
      Tables(Compacted(old_.entries, entries.base, listed),
          Compacted(old_.predicates, predicates.base, listedPredicates)), ts)
  {
    hide Lists, MapsListed, Remap;
    var new_ := Tables(Compacted(old_.entries, entries.base, listed),
      Compacted(old_.predicates, predicates.base, listedPredicates));
    forall t | t in ts ensures SaysTheSame(old_, new_, t, RemapTriple(entries, predicates, t)) {
      assert Uses(t, entries.base, keep, predicates.base, keepPredicates);
      RemapKeeps(old_.entries, entries.base, keep, listed, entries.idMap, entries.origin, t.s);
      RemapKeeps(old_.entries, entries.base, keep, listed, entries.idMap, entries.origin, t.o);
      RemapKeeps(old_.predicates, predicates.base, keepPredicates, listedPredicates, predicates.idMap,
          predicates.origin, t.p);
    }
  }
}
