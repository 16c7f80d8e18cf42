/** The steps of committing a layer builder: cancelling no-ops, finding the entries still in
    use, and applying what is left to the parent. */
module Commits {
  import opened Sorting
  import opened Triples
  import opened Dictionaries
  import opened StringTriples
  import opened Remapping
  import opened Numberings

  const ZERO: Triple := Triple(0, 0, 0)

  /** The triple names something the parent does not know. */
  predicate Beyond(t: Triple, base: nat, basePredicates: nat) {
    t.s > base || t.p > basePredicates || t.o > base
  }

  /** What the no-op walk leaves of an addition. */
  function CancelledAddition(t: Triple, removals: seq<Triple>): Triple {
    if t in removals then ZERO else t
  }

  /** What it leaves of a removal: nothing if it undoes an addition or cannot be in the parent. */
  function CancelledRemoval(t: Triple, additions: seq<Triple>, base: nat, basePredicates: nat): Triple {
    if t in additions || Beyond(t, base, basePredicates) then ZERO else t
  }

  /** `i` additions and `j` removals have been walked past. */
  ghost predicate Walked(additions: seq<Triple>, removals: seq<Triple>, i: nat, j: nat) {
    && i <= |additions| && j <= |removals|
    && (forall k, m :: 0 <= k < i && j <= m < |removals| ==> Before(BySubject, additions[k], removals[m]))
    && (forall k, m :: i <= k < |additions| && 0 <= m < j ==> Before(BySubject, removals[m], additions[k]))
  }

  lemma SkipAddition(additions: seq<Triple>, removals: seq<Triple>, i: nat, j: nat)
    requires Increasing(BySubject, additions) && Increasing(BySubject, removals) && Walked(additions, removals, i, j)
    requires i < |additions| && j < |removals| && Before(BySubject, additions[i], removals[j])
    ensures Walked(additions, removals, i + 1, j) && additions[i] !in removals
  {
    forall m | j <= m < |removals| ensures Before(BySubject, additions[i], removals[m]) {
      if m > j { assert Before(BySubject, removals[j], removals[m]); }
    }
  }

  lemma SkipRemoval(additions: seq<Triple>, removals: seq<Triple>, i: nat, j: nat)
    requires Increasing(BySubject, additions) && Increasing(BySubject, removals) && Walked(additions, removals, i, j)
    requires j < |removals| && (i == |additions| || Before(BySubject, removals[j], additions[i]))
    ensures Walked(additions, removals, i, j + 1) && removals[j] !in additions
  {
    forall k | i <= k < |additions| ensures Before(BySubject, removals[j], additions[k]) {
      if k > i { assert Before(BySubject, additions[i], additions[k]); }
    }
  }

  lemma SkipBoth(additions: seq<Triple>, removals: seq<Triple>, i: nat, j: nat)
    requires Increasing(BySubject, additions) && Increasing(BySubject, removals) && Walked(additions, removals, i, j)
    requires i < |additions| && j < |removals| && additions[i] == removals[j]
    ensures Walked(additions, removals, i + 1, j + 1)
  {
    forall m | j < m < |removals| ensures Before(BySubject, additions[i], removals[m]) {
      assert Before(BySubject, removals[j], removals[m]);
    }
    forall k | i < k < |additions| ensures Before(BySubject, removals[j], additions[k]) {
      assert Before(BySubject, additions[i], additions[k]);
    }
  }

  lemma NothingLeftToRemove(additions: seq<Triple>, removals: seq<Triple>, i: nat)
    requires Walked(additions, removals, i, |removals|)
    ensures forall k :: i <= k < |additions| ==> additions[k] !in removals
  {
  }

  /** Walks both ordered lists side by side, zeroing what cancels out. */
  method CancelNoops(additions: array<Triple>, removals: array<Triple>, base: nat, basePredicates: nat)
    requires additions != removals
    requires Increasing(BySubject, additions[..]) && Increasing(BySubject, removals[..])
    modifies additions, removals
    ensures forall k :: 0 <= k < additions.Length ==>
      additions[k] == CancelledAddition(old(additions[k]), old(removals[..]))
    ensures forall k :: 0 <= k < removals.Length ==>
      removals[k] == CancelledRemoval(old(removals[k]), old(additions[..]), base, basePredicates)
  {
    hide Increasing, Before, Walked, CancelledAddition, CancelledRemoval;
    ghost var as_, rs := additions[..], removals[..];
    var i, j := 0, 0;
    assert Walked(as_, rs, 0, 0) by { StartWalk(as_, rs); }
    while j < removals.Length
      invariant i <= additions.Length && j <= removals.Length && Walked(as_, rs, i, j)
      invariant forall k :: 0 <= k < i ==> additions[k] == CancelledAddition(as_[k], rs)
      invariant forall k :: i <= k < additions.Length ==> additions[k] == as_[k]
      invariant forall k :: 0 <= k < j ==> removals[k] == CancelledRemoval(rs[k], as_, base, basePredicates)
      invariant forall k :: j <= k < removals.Length ==> removals[k] == rs[k]
      decreases additions.Length - i + removals.Length - j
    {
      Cases(as_, rs, i, j, base, basePredicates);
      if i < additions.Length && Before(BySubject, additions[i], removals[j]) {
        SkipAddition(as_, rs, i, j);
        i := i + 1;
      } else if i == additions.Length || Before(BySubject, removals[j], additions[i]) {
        SkipRemoval(as_, rs, i, j);
        if Beyond(removals[j], base, basePredicates) {
          removals[j] := ZERO;
        }
        j := j + 1;
      } else {
        SkipBoth(as_, rs, i, j);
        additions[i] := ZERO;
        removals[j] := ZERO;
        i, j := i + 1, j + 1;
      }
    }
    NothingLeftToRemove(as_, rs, i);
    forall k | i <= k < |as_| ensures as_[k] == CancelledAddition(as_[k], rs) {
      Untouched(as_[k], rs);
    }
  }

  lemma StartWalk(additions: seq<Triple>, removals: seq<Triple>)
    ensures Walked(additions, removals, 0, 0)
  {
  }

  lemma Untouched(t: Triple, removals: seq<Triple>)
    requires t !in removals
    ensures CancelledAddition(t, removals) == t
  {
  }

  lemma Cases(additions: seq<Triple>, removals: seq<Triple>, i: nat, j: nat, base: nat, basePredicates: nat)
    requires i <= |additions| && j < |removals|
    ensures i < |additions| && additions[i] !in removals ==> CancelledAddition(additions[i], removals) == additions[i]
    ensures removals[j] !in additions ==>
      CancelledRemoval(removals[j], additions, base, basePredicates) == if Beyond(removals[j], base, basePredicates)
      then ZERO else removals[j]
    ensures i < |additions| && additions[i] == removals[j] ==>
      CancelledAddition(additions[i], removals) == ZERO &&
      CancelledRemoval(removals[j], additions, base, basePredicates) == ZERO
    ensures i < |additions| ==>
      Before(BySubject, additions[i], removals[j]) || Before(BySubject, removals[j], additions[i]) ||
      additions[i] == removals[j]
  {
  }

  /* ---- what the walk leaves, as sets ---- */

  /** The nonzero triples of a list. */
  ghost function Live(ts: seq<Triple>): set<Triple> {
    Elements(Filter(Nonzero, ts))
  }

  lemma LiveAre(ts: seq<Triple>, t: Triple)
    ensures t in Live(ts) <==> t in ts && Nonzero(t)
  {
    FilterElement(Nonzero, ts, t);
  }

  ghost function RealOf(ts: set<Triple>): set<Triple> {
    set t | t in ts && Nonzero(t)
  }

  /** Additions and removals that survive: neither both added and removed, nor, for removals,
      beyond the parent. */
  lemma Survivors(additions: seq<Triple>, removals: seq<Triple>, additions': seq<Triple>, removals': seq<Triple>,
      base: nat, basePredicates: nat)
    requires |additions'| == |additions| && |removals'| == |removals|
    requires forall k :: 0 <= k < |additions| ==> additions'[k] == CancelledAddition(additions[k], removals)
    requires forall k :: 0 <= k < |removals| ==>
      removals'[k] == CancelledRemoval(removals[k], additions, base, basePredicates)
    ensures Live(additions') == RealOf(Elements(additions)) - RealOf(Elements(removals))
    ensures Live(removals') == set t | t in RealOf(Elements(removals)) - RealOf(Elements(additions)) &&
      !Beyond(t, base, basePredicates)
  {
    hide Filter, Live;
    forall t ensures t in Live(additions') <==> t in additions && Nonzero(t) && t !in removals {
      LiveAre(additions', t);
      if t in additions && t !in removals {
        var k :| 0 <= k < |additions| && additions[k] == t;
        assert additions'[k] == t;
      }
    }
    forall t ensures t in Live(removals') <==>
      t in removals && Nonzero(t) && t !in additions && !Beyond(t, base, basePredicates) {
      LiveAre(removals', t);
      if t in removals && t !in additions && !Beyond(t, base, basePredicates) {
        var k :| 0 <= k < |removals| && removals[k] == t;
        assert removals'[k] == t;
      }
    }
  }

  lemma {:induction false} SurvivorsDistinct(ts: seq<Triple>, ts': seq<Triple>)
    requires Distinct(ts) && |ts'| == |ts| && forall k :: 0 <= k < |ts| ==> ts'[k] == ts[k] || ts'[k] == ZERO
    ensures Distinct(Filter(Nonzero, ts')) && forall t :: t in Filter(Nonzero, ts') ==> t in ts
  {
    if ts != [] {
      assert forall k :: 0 <= k < |ts| - 1 ==> ts[1..][k] == ts[k + 1] && ts'[1..][k] == ts'[k + 1];
      SurvivorsDistinct(ts[1..], ts'[1..]);
      assert ts == [ts[0]] + ts[1..];
      assert ts[0] !in ts[1..];
    }
  }

  /* ---- which entries are still used ---- */

  predicate Mentions(t: Triple, id: nat) {
    t.s == id || t.o == id
  }

  ghost predicate SomeMentions(ts: seq<Triple>, id: nat) {
    exists i :: 0 <= i < |ts| && Mentions(ts[i], id)
  }

  ghost predicate SomePredicate(ts: seq<Triple>, id: nat) {
    exists i :: 0 <= i < |ts| && ts[i].p == id
  }

  /** Every id of the triples fits the bit vectors. */
  ghost predicate Fits(ts: seq<Triple>, limit: nat, limitPredicates: nat) {
    forall i :: 0 <= i < |ts| ==> ts[i].s < limit && ts[i].o < limit && ts[i].p < limitPredicates
  }

  /** Sets the bits of the ids, from `origin` on, that the triples use. */
  method MarkUsed(ts: seq<Triple>, existences: array<bool>, origin: nat, predicateExistences: array<bool>,
      predicateOrigin: nat)
    requires existences != predicateExistences
    requires Fits(ts, origin + existences.Length, predicateOrigin + predicateExistences.Length)
    modifies existences, predicateExistences
    ensures forall k :: 0 <= k < existences.Length ==>
      (existences[k] <==> old(existences[k]) || SomeMentions(ts, origin + k))
    ensures forall k :: 0 <= k < predicateExistences.Length ==>
      (predicateExistences[k] <==> old(predicateExistences[k]) || SomePredicate(ts, predicateOrigin + k))
  {
    hide SomeMentions, SomePredicate;
    NoneMentions(ts[..0]);
    for i := 0 to |ts|
      invariant forall k :: 0 <= k < existences.Length ==>
        (existences[k] <==> old(existences[k]) || SomeMentions(ts[..i], origin + k))
      invariant forall k :: 0 <= k < predicateExistences.Length ==>
        (predicateExistences[k] <==> old(predicateExistences[k]) || SomePredicate(ts[..i], predicateOrigin + k))
    {
      var t := ts[i];
      if t.s >= origin {
        existences[t.s - origin] := true;
      }
      if t.p >= predicateOrigin {
        predicateExistences[t.p - predicateOrigin] := true;
      }
      if t.o >= origin {
        existences[t.o - origin] := true;
      }
      MentionsNext(ts, i);
    }
    assert ts[..|ts|] == ts;
  }

  lemma NoneMentions(ts: seq<Triple>)
    requires ts == []
    ensures forall id: nat {:trigger SomeMentions(ts, id)} :: !SomeMentions(ts, id)
    ensures forall id: nat {:trigger SomePredicate(ts, id)} :: !SomePredicate(ts, id)
  {
  }

  lemma MentionsNext(ts: seq<Triple>, i: nat)
    requires i < |ts|
    ensures forall id: nat {:trigger SomeMentions(ts[..i + 1], id)} :: SomeMentions(ts[..i + 1], id) <==>
      SomeMentions(ts[..i], id) || Mentions(ts[i], id)
    ensures forall id: nat {:trigger SomePredicate(ts[..i + 1], id)} :: SomePredicate(ts[..i + 1], id) <==>
      SomePredicate(ts[..i], id) || ts[i].p == id
  {
    var more := ts[..i + 1];
    forall id: nat ensures SomeMentions(more, id) <==> SomeMentions(ts[..i], id) || Mentions(ts[i], id) {
      if SomeMentions(ts[..i], id) {
        var k :| 0 <= k < i && Mentions(ts[..i][k], id);
        assert Mentions(more[k], id);
      }
      if Mentions(ts[i], id) {
        assert Mentions(more[i], id);
      }
      if SomeMentions(more, id) && !Mentions(ts[i], id) {
        var k :| 0 <= k < |more| && Mentions(more[k], id);
        assert Mentions(ts[..i][k], id);
      }
    }
    forall id: nat ensures SomePredicate(more, id) <==> SomePredicate(ts[..i], id) || ts[i].p == id {
      if SomePredicate(ts[..i], id) {
        var k :| 0 <= k < i && ts[..i][k].p == id;
        assert more[k].p == id;
      }
      if ts[i].p == id {
        assert more[i].p == id;
      }
      if SomePredicate(more, id) && ts[i].p != id {
        var k :| 0 <= k < |more| && more[k].p == id;
        assert ts[..i][k].p == id;
      }
    }
  }

  /** The marked ids above `base`. */
  function Marked(bits: seq<bool>, origin: nat, base: nat): (keep: set<nat>)
    ensures forall id: nat {:trigger id in keep} :: id in keep <==>
      base < id && 0 <= id - origin < |bits| && bits[id - origin]
    decreases |bits|
  {
    if bits == [] then {} else
      var last := |bits| - 1;
      Marked(bits[..last], origin, base) + (if bits[last] && base < origin + last then {origin + last} else {})
  }

  ghost predicate UsedAbove(ts: seq<Triple>, keep: set<nat>, base: nat, limit: nat) {
    forall id: nat {:trigger id in keep} :: id in keep <==> base < id <= limit && SomeMentions(ts, id)
  }

  ghost predicate PredicatesUsedAbove(ts: seq<Triple>, keep: set<nat>, base: nat, limit: nat) {
    forall id: nat {:trigger id in keep} :: id in keep <==> base < id <= limit && SomePredicate(ts, id)
  }

  lemma MarkedAreUsed(ts: seq<Triple>, bits: seq<bool>, origin: nat, base: nat)
    requires origin <= base + 1 && 1 <= origin + |bits|
    requires forall k :: 0 <= k < |bits| ==> (bits[k] <==> SomeMentions(ts, origin + k))
    ensures UsedAbove(ts, Marked(bits, origin, base), base, origin + |bits| - 1)
  {
    hide SomeMentions;
    var keep := Marked(bits, origin, base);
    forall id: nat ensures id in keep <==> base < id < origin + |bits| && SomeMentions(ts, id) {
      if base < id < origin + |bits| {
        assert bits[id - origin] <==> SomeMentions(ts, origin + (id - origin));
      }
    }
  }

  lemma MarkedPredicatesAreUsed(ts: seq<Triple>, bits: seq<bool>, origin: nat, base: nat)
    requires origin <= base + 1 && 1 <= origin + |bits|
    requires forall k :: 0 <= k < |bits| ==> (bits[k] <==> SomePredicate(ts, origin + k))
    ensures PredicatesUsedAbove(ts, Marked(bits, origin, base), base, origin + |bits| - 1)
  {
    hide SomePredicate;
    var keep := Marked(bits, origin, base);
    forall id: nat ensures id in keep <==> base < id < origin + |bits| && SomePredicate(ts, id) {
      if base < id < origin + |bits| {
        assert bits[id - origin] <==> SomePredicate(ts, origin + (id - origin));
      }
    }
  }

  /* ---- renumbered lists with zeros in them ---- */

  lemma {:induction false} FilterCount(keep: Triple -> bool, ts: seq<Triple>, t: Triple)
    ensures multiset(Filter(keep, ts))[t] == if keep(t) then multiset(ts)[t] else 0
  {
    if ts != [] {
      FilterCount(keep, ts[1..], t);
      assert ts == [ts[0]] + ts[1..];
    }
  }

  lemma FilterBag(keep: Triple -> bool, a: seq<Triple>, b: seq<Triple>)
    requires multiset(a) == multiset(b)
    ensures multiset(Filter(keep, a)) == multiset(Filter(keep, b))
  {
    forall t ensures multiset(Filter(keep, a))[t] == multiset(Filter(keep, b))[t] {
      FilterCount(keep, a, t);
      FilterCount(keep, b, t);
    }
  }

  lemma {:induction false} RemapFilter(entries: Renumbering, predicates: Renumbering, ts: seq<Triple>)
    requires forall t :: t in ts && Nonzero(t) ==> Nonzero(RemapTriple(entries, predicates, t))
    ensures Filter(Nonzero, RemapAll(entries, predicates, ts)) == RemapAll(entries, predicates, Filter(Nonzero, ts))
  {
    if ts != [] {
      var all := RemapAll(entries, predicates, ts);
      assert all[1..] == RemapAll(entries, predicates, ts[1..]);
      RemapFilter(entries, predicates, ts[1..]);
      assert RemapTriple(entries, predicates, ts[0]) == all[0];
      assert RemapAll(entries, predicates, [ts[0]] + Filter(Nonzero, ts[1..]))
          == [all[0]] + RemapAll(entries, predicates, Filter(Nonzero, ts[1..]));
    }
  }

  /** Filtering a sorted list of which the filtered part is distinct gives an increasing list. */
  lemma FilteredSortedIncreases(keep: Triple -> bool, sorted: seq<Triple>, part: seq<Triple>)
    requires Sorted(SubjectOrder(), sorted) && multiset(Filter(keep, sorted)) == multiset(part) && Distinct(part)
    ensures Increasing(BySubject, Filter(keep, sorted)) && Elements(Filter(keep, sorted)) == Elements(part)
  {
    hide Filter, TotalOrder, Increasing;
    FilterSorted(keep, sorted);
    SortedDistinctAscends(SubjectOrder(), Filter(keep, sorted), part);
    AscendingIsIncreasing(Filter(keep, sorted));
  }

  lemma {:induction false} FilterSorted(keep: Triple -> bool, ts: seq<Triple>)
    requires Sorted(SubjectOrder(), ts)
    ensures Sorted(SubjectOrder(), Filter(keep, ts))
  {
    if ts != [] {
      FilterSorted(keep, ts[1..]);
      var rest := Filter(keep, ts[1..]);
      forall i | 0 <= i < |rest| ensures SubjectOrder()(ts[0], rest[i]) {
        FilterElement(keep, ts[1..], rest[i]);
        assert rest[i] in ts[1..];
        var m :| 0 <= m < |ts[1..]| && ts[1..][m] == rest[i];
        assert SubjectOrder()(ts[0], ts[m + 1]);
      }
    }
  }

  /** Renumbers what survives; zeros stay zeros. */
  method RenumberLive(entries: Renumbering, predicates: Renumbering, ts: seq<Triple>, ghost old_: Tables,
      ghost new_: Tables) returns (r: seq<Triple>)
    requires old_.Distinct() && Distinct(Filter(Nonzero, ts)) && Preserves(entries, predicates, old_, new_, Live(ts))
    ensures Increasing(BySubject, Filter(Nonzero, r))
    ensures KnowsAll(new_, Live(r)) && KnowsAll(old_, Live(ts)) && DecodeAll(new_, Live(r)) == DecodeAll(old_, Live(ts))
  {
    hide Filter, Increasing, Sorted, Tables.Distinct, Distinct, Elements, KnowsAll, DecodeAll, Preserves;
    r := RenumberAndSort(entries, predicates, ts);
    LiveRemap(entries, predicates, old_, new_, ts);
    RemapFilter(entries, predicates, ts);
    FilterBag(Nonzero, r, RemapAll(entries, predicates, ts));
    RenumberedMeaning(entries, predicates, old_, new_, Filter(Nonzero, ts));
    FilteredSortedIncreases(Nonzero, r, RemapAll(entries, predicates, Filter(Nonzero, ts)));
  }

  lemma LiveRemap(entries: Renumbering, predicates: Renumbering, old_: Tables, new_: Tables, ts: seq<Triple>)
    requires Preserves(entries, predicates, old_, new_, Live(ts))
    ensures forall t :: t in ts && Nonzero(t) ==> Nonzero(RemapTriple(entries, predicates, t))
  {
    hide RemapTriple, Live;
    forall t | t in ts && Nonzero(t) ensures Nonzero(RemapTriple(entries, predicates, t)) {
      LiveAre(ts, t);
      assert SaysTheSame(old_, new_, t, RemapTriple(entries, predicates, t));
    }
  }

  /* ---- collecting the entries in use from the lookup maps ---- */

  /** The map names every entry by its id in the table. */
  ghost predicate NamesBy<K(!new)>(table: seq<K>, m: map<K, nat>) {
    forall k :: k in m ==> 1 <= m[k] <= |table| && table[m[k] - 1] == k
  }

  ghost predicate Collecting<K(!new)>(m: map<K, nat>, which: K -> bool, keep: set<nat>, remaining: set<K>,
      listed: seq<(K, nat)>) {
    && IdsDistinct(listed)
    && (forall i :: 0 <= i < |listed| ==>
      listed[i].0 in m && listed[i].0 !in remaining && m[listed[i].0] == listed[i].1)
    && (forall i :: 0 <= i < |listed| ==> which(listed[i].0) && listed[i].1 in keep)
    && (forall k :: k in m && k !in remaining && which(k) && m[k] in keep ==> HasId(listed, m[k]))
  }

  lemma CollectingStep<K(!new)>(table: seq<K>, m: map<K, nat>, which: K -> bool, keep: set<nat>, remaining: set<K>,
      listed: seq<(K, nat)>, k: K)
    requires NamesBy(table, m) && Collecting(m, which, keep, remaining, listed) && k in remaining && k in m
    ensures Collecting(m, which, keep, remaining - {k}, if which(k) && m[k] in keep then listed + [(k, m[k])]
      else listed)
  {
    hide HasId;
    if which(k) && m[k] in keep {
      var more := listed + [(k, m[k])];
      forall i | 0 <= i < |listed| ensures listed[i].1 != m[k] {
        assert table[m[listed[i].0] - 1] == listed[i].0;
      }
      forall e | e in m && e !in remaining - {k} && which(e) && m[e] in keep ensures HasId(more, m[e]) {
        if e == k {
          LastHasId(listed, (k, m[k]));
        } else {
          HasIdConcat(listed, [(k, m[k])], m[e]);
        }
      }
    }
  }

  lemma LastHasId<K>(listed: seq<(K, nat)>, x: (K, nat))
    ensures HasId(listed + [x], x.1)
  {
    assert (listed + [x])[|listed|].1 == x.1;
  }

  lemma CollectingDone<K(!new)>(table: seq<K>, m: map<K, nat>, which: K -> bool, keep: set<nat>, listed: seq<(K, nat)>)
    requires NamesBy(table, m) && Distinct(table) && Collecting(m, which, keep, {}, listed)
    requires forall id :: id in keep && 1 <= id <= |table| ==> table[id - 1] in m
    ensures Numbers(table, which, keep, listed)
  {
    hide HasId;
    forall i | 0 <= i < |listed| ensures 1 <= listed[i].1 <= |table| && table[listed[i].1 - 1] == listed[i].0 {
      assert listed[i].0 in m;
    }
    forall id | id in keep && 1 <= id <= |table| && which(table[id - 1]) ensures HasId(listed, id) {
      var k := table[id - 1];
      assert m[k] == id by {
        assert table[m[k] - 1] == k;
      }
    }
  }

  lemma CollectingNothing<K(!new)>(m: map<K, nat>, which: K -> bool, keep: set<nat>)
    ensures Collecting(m, which, keep, m.Keys, [])
  {
  }

  /** Goes through a lookup map, in whatever order, keeping what is new and in use. */
  method CollectEntries(m: map<Entry, nat>, base: nat, bits: seq<bool>,
      ghost table: seq<Entry>) returns (nodes: seq<(Entry, nat)>, values: seq<(Entry, nat)>)
    requires NamesBy(table, m) && Distinct(table) && |table| == base + |bits|
    requires forall i :: base <= i < |table| ==> table[i] in m
    ensures Numbers(table, IsNode, Marked(bits, base + 1, base), nodes)
    ensures Numbers(table, IsValue, Marked(bits, base + 1, base), values)
  {
    hide Collecting, Numbers, Distinct, Marked;
    ghost var keep := Marked(bits, base + 1, base);
    nodes, values := [], [];
    var remaining := m.Keys;
    CollectingNothing(m, IsNode, keep);
    CollectingNothing(m, IsValue, keep);
    while remaining != {}
      invariant remaining <= m.Keys
      invariant Collecting(m, IsNode, keep, remaining, nodes) && Collecting(m, IsValue, keep, remaining, values)
      decreases |remaining|
    {
      var entry :| entry in remaining;
      CollectingStep(table, m, IsNode, keep, remaining, nodes, entry);
      CollectingStep(table, m, IsValue, keep, remaining, values, entry);
      remaining := remaining - {entry};
      var id := m[entry];
      if id <= base {
        continue;
      }
      if !bits[id - base - 1] {
        continue;
      }
      match entry {
        case Node(_) => nodes := nodes + [(entry, id)];
        case Value(_, _) => values := values + [(entry, id)];
      }
    }
    CollectingDone(table, m, IsNode, keep, nodes);
    CollectingDone(table, m, IsValue, keep, values);
  }

  method CollectPredicates(m: map<Str, nat>, base: nat, bits: seq<bool>,
      ghost table: seq<Str>) returns (listed: seq<(Str, nat)>)
    requires NamesBy(table, m) && Distinct(table) && |table| == base + |bits|
    requires forall i :: base <= i < |table| ==> table[i] in m
    ensures Numbers(table, Every, Marked(bits, base + 1, base), listed)
  {
    hide Collecting, Numbers, Distinct, Marked;
    ghost var keep := Marked(bits, base + 1, base);
    listed := [];
    var remaining := m.Keys;
    CollectingNothing(m, Every, keep);
    while remaining != {}
      invariant remaining <= m.Keys
      invariant Collecting(m, Every, keep, remaining, listed)
      decreases |remaining|
    {
      var entry :| entry in remaining;
      CollectingStep(table, m, Every, keep, remaining, listed, entry);
      remaining := remaining - {entry};
      var id := m[entry];
      if id <= base {
        continue;
      }
      if !bits[id - base - 1] {
        continue;
      }
      listed := listed + [(entry, id)];
    }
    CollectingDone(table, m, Every, keep, listed);
  }
}
