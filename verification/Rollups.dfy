/** Rolling a stack up into one layer: merged dictionaries with id maps under which every entry
    keeps the global id it had, and the triples of the stack. */
module Rollups {
  import opened Sorting
  import opened Triples
  import opened Dictionaries
  import opened InternalLayers
  import opened IdTranslation
  import opened StringTriples
  import opened Remapping
  import opened Numberings
  import opened LayerFileBuilders
  import opened MergedIterators
  import opened LayerQueries

  function Ids(n: nat): (r: set<nat>)
    ensures forall id: nat {:trigger id in r} :: id in r <==> 1 <= id <= n
  {
    if n == 0 then {} else Ids(n - 1) + {n}
  }

  /* ---- gathering runs ---- */

  /** Sorted runs, one per dictionary, of the gathered entries: numbered in `runs`, bare in `dicts`. */
  ghost predicate Gathered<K(!new)>(le: (K, K) -> bool, runs: seq<seq<(K, nat)>>, dicts: seq<seq<K>>,
      all: seq<(K, nat)>)
    requires TotalOrder(le)
  {
    && AllSorted(NumberedOrder(le), runs) && Bag(runs) == multiset(all)
    && AllSorted(le, dicts) && Bag(dicts) == multiset(Keys(all))
  }

  lemma NumbersGrow<K(!new)>(table: seq<K>, own: seq<K>, which: K -> bool, listed: seq<(K, nat)>, run: seq<(K, nat)>)
    requires Numbers(table, which, Ids(|table|), listed) && RunOf(own, which, |table|, run)
    ensures Numbers(table + own, which, Ids(|table + own|), listed + run)
  {
    hide KeptRun, HasId, IdsDistinct;
    var keep := Ids(|table + own|);
    NumbersMore(table, own, which, keep, listed, run);
    KeptRunWhole(run, keep);
  }

  lemma KeysConcat<K>(a: seq<(K, nat)>, b: seq<(K, nat)>)
    ensures Keys(a + b) == Keys(a) + Keys(b)
  {
  }

  lemma RunSorted<K(!new)>(le: (K, K) -> bool, run: seq<(K, nat)>)
    requires TotalOrder(le) && Ascending(le, Keys(run))
    ensures Sorted(NumberedOrder(le), run) && Sorted(le, Keys(run))
  {
    hide TotalOrder;
    forall i, j | 0 <= i < j < |run| ensures NumberedOrder(le)(run[i], run[j]) {
      assert le(Keys(run)[i], Keys(run)[j]) && Keys(run)[i] != Keys(run)[j];
    }
  }

  /** One more dictionary. */
  lemma GatherMore<K(!new)>(le: (K, K) -> bool, runs: seq<seq<(K, nat)>>, dicts: seq<seq<K>>, all: seq<(K, nat)>,
      run: seq<(K, nat)>)
    requires TotalOrder(le) && Gathered(le, runs, dicts, all) && Ascending(le, Keys(run))
    ensures Gathered(le, runs + [run], dicts + [Keys(run)], all + run)
  {
    hide TotalOrder, AllSorted, Sorted, Bag, Ascending, NumberedOrder;
    BagAppend(runs, run);
    BagAppend(dicts, Keys(run));
    KeysConcat(all, run);
    RunSorted(le, run);
    MoreSorted(NumberedOrder(le), runs, run);
    MoreSorted(le, dicts, Keys(run));
  }

  lemma MoreSorted<T(!new)>(le: (T, T) -> bool, runs: seq<seq<T>>, run: seq<T>)
    requires AllSorted(le, runs) && Sorted(le, run)
    ensures AllSorted(le, runs + [run])
  {
    forall r | 0 <= r < |runs + [run]| ensures Sorted(le, (runs + [run])[r]) {
      if r < |runs| {
        assert Sorted(le, runs[r]);
      }
    }
  }

  lemma GatherNothing<K(!new)>(le: (K, K) -> bool, which: K -> bool)
    requires TotalOrder(le)
    ensures Gathered(le, [], [], []) && Numbers([], which, Ids(0), [])
  {
    hide TotalOrder;
    NumbersNothing([], which, Ids(0));
  }

  lemma RunsAscend(d: Dictionary, offset: nat)
    requires d.Valid()
    ensures Ascending(EntryOrdering(), Keys(NodeRun(d, offset))) &&
      Ascending(EntryOrdering(), Keys(ValueRun(d, offset)))
    ensures Ascending(StrOrdering(), Keys(PredicateRun(d, offset)))
    ensures Keys(ValueRun(d, offset)) == d.values && Keys(PredicateRun(d, offset)) == d.predicates
  {
    hide TotalOrder, IdMap.Permutes;
    var ks := Keys(NodeRun(d, offset));
    forall i, j | 0 <= i < j < |ks| ensures EntryOrdering()(ks[i], ks[j]) && ks[i] != ks[j] {
      assert ks[i] == Node(d.nodes[i]) && ks[j] == Node(d.nodes[j]);
      assert StrOrdering()(d.nodes[i], d.nodes[j]) && d.nodes[i] != d.nodes[j];
    }
    assert Keys(ValueRun(d, offset)) == d.values;
    assert Keys(PredicateRun(d, offset)) == d.predicates;
  }

  method NodeRuns(ds: seq<Dictionary>) returns (runs: seq<seq<(Entry, nat)>>, dicts: seq<seq<Entry>>,
      ghost all: seq<(Entry, nat)>)
    requires AllValid(ds)
    ensures Gathered(EntryOrdering(), runs, dicts, all) && Numbers(Outers(ds), IsNode, Ids(|Outers(ds)|), all)
  {
    hide AllValid, Dictionary.Valid, Dictionary.Outer, Outers, OuterPredicatesOf, Gathered, RunOf, TotalOrder,
      EntryOrdering, NodeRun, Ascending, Numbers, Ids;
    runs, dicts, all := [], [], [];
    var offset := 0;
    NoOuters();
    AllValidUpto(ds, 0);
    GatherNothing(EntryOrdering(), IsNode);
    assert ds[..0] == [];
    for ix := 0 to |ds|
      invariant AllValid(ds[..ix])
      invariant Gathered(EntryOrdering(), runs, dicts, all)
      invariant Numbers(Outers(ds[..ix]), IsNode, Ids(|Outers(ds[..ix])|), all)
      invariant offset == |Outers(ds[..ix])|
    {
      OutersNext(ds, ix);
      AllValidUpto(ds, ix + 1);
      NodeRunOf(ds[ix], offset);
      RunsAscend(ds[ix], offset);
      var run := NodeRun(ds[ix], offset);
      GatherMore(EntryOrdering(), runs, dicts, all, run);
      NumbersGrow(Outers(ds[..ix]), ds[ix].Outer(), IsNode, all, run);
      runs, dicts, all := runs + [run], dicts + [Keys(run)], all + run;
      offset := offset + (|ds[ix].nodes| + |ds[ix].values|);
    }
    assert ds[..|ds|] == ds;
  }

  method ValueRuns(ds: seq<Dictionary>) returns (runs: seq<seq<(Entry, nat)>>, dicts: seq<seq<Entry>>,
      ghost all: seq<(Entry, nat)>)
    requires AllValid(ds)
    ensures Gathered(EntryOrdering(), runs, dicts, all) && Numbers(Outers(ds), IsValue, Ids(|Outers(ds)|), all)
  {
    hide AllValid, Dictionary.Valid, Dictionary.Outer, Outers, OuterPredicatesOf, Gathered, RunOf, TotalOrder,
      EntryOrdering, ValueRun, Ascending, Numbers, Ids;
    runs, dicts, all := [], [], [];
    var offset := 0;
    NoOuters();
    AllValidUpto(ds, 0);
    GatherNothing(EntryOrdering(), IsValue);
    assert ds[..0] == [];
    for ix := 0 to |ds|
      invariant AllValid(ds[..ix])
      invariant Gathered(EntryOrdering(), runs, dicts, all)
      invariant Numbers(Outers(ds[..ix]), IsValue, Ids(|Outers(ds[..ix])|), all)
      invariant offset == |Outers(ds[..ix])|
    {
      OutersNext(ds, ix);
      AllValidUpto(ds, ix + 1);
      ValueRunOf(ds[ix], offset);
      RunsAscend(ds[ix], offset);
      var run := ValueRun(ds[ix], offset);
      GatherMore(EntryOrdering(), runs, dicts, all, run);
      NumbersGrow(Outers(ds[..ix]), ds[ix].Outer(), IsValue, all, run);
      runs, dicts, all := runs + [run], dicts + [ds[ix].values], all + run;
      offset := offset + (|ds[ix].nodes| + |ds[ix].values|);
    }
    assert ds[..|ds|] == ds;
  }

  /** The predicates numbered under a map that comes from elsewhere than their dictionary. */
  function RunUnder(d: Dictionary, ids: IdMap, offset: nat): (r: seq<(Str, nat)>)
    ensures |r| == |d.predicates|
    ensures forall i :: 0 <= i < |r| ==> r[i] == (d.predicates[i], ids.InnerToOuter(i + 1) + offset)
  {
    seq(|d.predicates|, i requires 0 <= i < |d.predicates| => (d.predicates[i], ids.InnerToOuter(i + 1) + offset))
  }

  /** `ids` says of every predicate what the dictionary's own map says. */
  predicate Tells(d: Dictionary, ids: IdMap) {
    forall id :: 1 <= id <= |d.predicates| ==> ids.InnerToOuter(id) == d.predicateIds.InnerToOuter(id)
  }

  predicate AllTell(ds: seq<Dictionary>, maps: seq<IdMap>) {
    |maps| == |ds| && forall i :: 0 <= i < |ds| ==> Tells(ds[i], maps[i])
  }

  function PredicateMaps(ds: seq<Dictionary>): (maps: seq<IdMap>)
    ensures |maps| == |ds| && forall i :: 0 <= i < |ds| ==> maps[i] == ds[i].predicateIds
  {
    seq(|ds|, i requires 0 <= i < |ds| => ds[i].predicateIds)
  }

  /** The predicates of the dictionaries below the `i`-th. */
  function PredicatesBefore(ds: seq<Dictionary>, i: nat): nat
    requires i <= |ds|
  {
    if i == 0 then 0 else PredicatesBefore(ds, i - 1) + |ds[i - 1].predicates|
  }

  /** `n` is what the `i`-th map makes of the place of the predicate in the `i`-th dictionary. */
  ghost predicate NumberedBy(ds: seq<Dictionary>, maps: seq<IdMap>, i: nat, p: Str, n: nat) {
    && i < |ds| && i < |maps|
    && exists j ::
      && 0 <= j < |ds[i].predicates| && ds[i].predicates[j] == p
      && n == maps[i].InnerToOuter(j + 1) + PredicatesBefore(ds, i)
  }

  /** One of the lowest `below` dictionaries holds the predicate, and `n` is its number under the map
      given for that one. */
  ghost predicate Numbered(ds: seq<Dictionary>, maps: seq<IdMap>, below: nat, p: Str, n: nat) {
    exists i: nat :: i < below && NumberedBy(ds, maps, i, p, n)
  }

  ghost predicate AllNumbered(ds: seq<Dictionary>, maps: seq<IdMap>, below: nat, listed: seq<(Str, nat)>) {
    forall k :: 0 <= k < |listed| ==> Numbered(ds, maps, below, listed[k].0, listed[k].1)
  }

  lemma NumberedMore(ds: seq<Dictionary>, maps: seq<IdMap>, ix: nat, p: Str, n: nat)
    requires Numbered(ds, maps, ix, p, n)
    ensures Numbered(ds, maps, ix + 1, p, n)
  {
    hide NumberedBy;
  }

  lemma NumberedAt(ds: seq<Dictionary>, maps: seq<IdMap>, ix: nat, j: nat)
    requires ix < |ds| && ix < |maps| && j < |ds[ix].predicates|
    ensures Numbered(ds, maps, ix + 1, ds[ix].predicates[j],
      maps[ix].InnerToOuter(j + 1) + PredicatesBefore(ds, ix))
  {
    assert NumberedBy(ds, maps, ix, ds[ix].predicates[j], maps[ix].InnerToOuter(j + 1) + PredicatesBefore(ds, ix));
  }

  lemma NumberMore(ds: seq<Dictionary>, maps: seq<IdMap>, ix: nat, listed: seq<(Str, nat)>)
    requires ix < |ds| && ix < |maps| && AllNumbered(ds, maps, ix, listed)
    ensures AllNumbered(ds, maps, ix + 1, listed + RunUnder(ds[ix], maps[ix], PredicatesBefore(ds, ix)))
  {
    hide Numbered, IdMap.InnerToOuter, PredicatesBefore;
    var run := RunUnder(ds[ix], maps[ix], PredicatesBefore(ds, ix));
    var all := listed + run;
    forall k | 0 <= k < |all| ensures Numbered(ds, maps, ix + 1, all[k].0, all[k].1) {
      if k < |listed| {
        NumberedMore(ds, maps, ix, listed[k].0, listed[k].1);
      } else {
        NumberedAt(ds, maps, ix, k - |listed|);
      }
    }
  }

  /** Gathers the predicates under the given maps, whatever those say. Numbered by their own maps
      they would be `own`. */
  method PredicateRuns(ds: seq<Dictionary>, maps: seq<IdMap>) returns (runs: seq<seq<(Str, nat)>>,
      dicts: seq<seq<Str>>, ghost all: seq<(Str, nat)>, ghost own: seq<(Str, nat)>)
    requires AllValid(ds) && |maps| == |ds|
    ensures Gathered(StrOrdering(), runs, dicts, all) && SameKeys(all, own)
    ensures Numbers(OuterPredicatesOf(ds), Every, Ids(|OuterPredicatesOf(ds)|), own)
    ensures all == own <==> AllTell(ds, maps)
    ensures AllNumbered(ds, maps, |ds|, all) && |all| == PredicatesBefore(ds, |ds|)
  {
    hide AllValid, Dictionary.Valid, Dictionary.OuterPredicates, Dictionary.Outer, Outers, OuterPredicatesOf,
      Gathered, RunOf, TotalOrder, StrOrdering, PredicateRun, RunUnder, Tells, AllTell, Ascending, Numbers, Ids,
      SameKeys, AllNumbered;
    runs, dicts, all, own := [], [], [], [];
    var offset := 0;
    NoOuters();
    AllValidUpto(ds, 0);
    GatherNothing(StrOrdering(), Every);
    NothingTold();
    assert AllNumbered(ds, maps, 0, []) by { NothingNumbered(ds, maps); }
    assert ds[..0] == [] && maps[..0] == [];
    for ix := 0 to |ds|
      invariant AllValid(ds[..ix])
      invariant Gathered(StrOrdering(), runs, dicts, all) && SameKeys(all, own)
      invariant Numbers(OuterPredicatesOf(ds[..ix]), Every, Ids(|OuterPredicatesOf(ds[..ix])|), own)
      invariant all == own <==> AllTell(ds[..ix], maps[..ix])
      invariant offset == |OuterPredicatesOf(ds[..ix])| == PredicatesBefore(ds, ix) == |all|
      invariant AllNumbered(ds, maps, ix, all)
    {
      OutersNext(ds, ix);
      AllValidUpto(ds, ix + 1);
      PredicateRunOf(ds[ix], offset);
      RunsAscend(ds[ix], offset);
      var run := RunUnder(ds[ix], maps[ix], offset);
      ghost var right := PredicateRun(ds[ix], offset);
      RunUnderParts(ds[ix], maps[ix], offset);
      GatherMore(StrOrdering(), runs, dicts, all, run);
      NumbersGrow(OuterPredicatesOf(ds[..ix]), ds[ix].OuterPredicates(), Every, own, right);
      MoreKeys(all, own, run, right);
      MoreTold(ds, maps, ix);
      NumberMore(ds, maps, ix, all);
      RunLength(ds[ix], maps[ix], offset);
      runs, dicts, all, own := runs + [run], dicts + [ds[ix].predicates], all + run, own + right;
      offset := offset + |ds[ix].predicates|;
    }
    assert ds[..|ds|] == ds && maps[..|ds|] == maps;
  }

  /** The same strings in the same places, under numbers counted from one. */
  ghost predicate SameKeys<K(!new)>(a: seq<(K, nat)>, b: seq<(K, nat)>) {
    |a| == |b| && (forall i :: 0 <= i < |a| ==> a[i].0 == b[i].0 && a[i].1 >= 1)
  }

  lemma NothingNumbered(ds: seq<Dictionary>, maps: seq<IdMap>)
    ensures AllNumbered(ds, maps, 0, [])
  {
  }

  lemma RunLength(d: Dictionary, ids: IdMap, offset: nat)
    ensures |RunUnder(d, ids, offset)| == |d.predicates|
  {
  }

  lemma NothingTold()
    ensures AllTell([], []) && SameKeys<Str>([], [])
  {
  }

  lemma MoreTold(ds: seq<Dictionary>, maps: seq<IdMap>, ix: nat)
    requires |maps| == |ds| && ix < |ds|
    ensures AllTell(ds[..ix + 1], maps[..ix + 1]) <==> AllTell(ds[..ix], maps[..ix]) && Tells(ds[ix], maps[ix])
  {
    hide Tells;
    if AllTell(ds[..ix + 1], maps[..ix + 1]) {
      assert Tells(ds[..ix + 1][ix], maps[..ix + 1][ix]);
      forall i | 0 <= i < ix ensures Tells(ds[..ix][i], maps[..ix][i]) {
        assert Tells(ds[..ix + 1][i], maps[..ix + 1][i]);
      }
    }
  }

  lemma MoreKeys<K(!new)>(all: seq<(K, nat)>, own: seq<(K, nat)>, run: seq<(K, nat)>, right: seq<(K, nat)>)
    requires SameKeys(all, own) && SameKeys(run, right)
    ensures SameKeys(all + run, own + right) && (all + run == own + right <==> all == own && run == right)
  {
    if all + run == own + right {
      assert all == (all + run)[..|all|] && own == (own + right)[..|own|];
      assert run == (all + run)[|all|..] && right == (own + right)[|own|..];
    }
  }

  lemma RunUnderParts(d: Dictionary, ids: IdMap, offset: nat)
    ensures SameKeys(RunUnder(d, ids, offset), PredicateRun(d, offset))
    ensures Keys(RunUnder(d, ids, offset)) == d.predicates
    ensures RunUnder(d, ids, offset) == PredicateRun(d, offset) <==> Tells(d, ids)
  {
    hide IdMap.InnerToOuter;
    var run, own := RunUnder(d, ids, offset), PredicateRun(d, offset);
    if run == own {
      forall id | 1 <= id <= |d.predicates| ensures ids.InnerToOuter(id) == d.predicateIds.InnerToOuter(id) {
        assert run[id - 1] == own[id - 1];
      }
    }
  }

  lemma AllValidUpto(ds: seq<Dictionary>, i: nat)
    requires AllValid(ds) && i <= |ds|
    ensures AllValid(ds[..i])
  {
  }

  /* ---- merging them ---- */

  lemma NumbersKeysDistinct<K(!new)>(table: seq<K>, which: K -> bool, keep: set<nat>, listed: seq<(K, nat)>)
    requires Distinct(table) && Numbers(table, which, keep, listed)
    ensures Distinct(Keys(listed))
  {
    hide HasId;
    forall i, j | 0 <= i < j < |listed| ensures listed[i].0 != listed[j].0 {
      assert table[listed[i].1 - 1] == listed[i].0 && table[listed[j].1 - 1] == listed[j].0;
    }
  }

  /** Merging the numbered runs and merging the bare dictionaries give the same entries. */
  method MergeGathered<K(!new)>(le: (K, K) -> bool, runs: seq<seq<(K, nat)>>, dicts: seq<seq<K>>,
      ghost all: seq<(K, nat)>, order: ((K, nat), (K, nat)) -> bool)
    returns (merged: seq<(K, nat)>, dict: seq<K>)
    requires TotalOrder(le) && Gathered(le, runs, dicts, all) && Distinct(Keys(all)) && order == NumberedOrder(le)
    ensures Sorted(NumberedOrder(le), merged) && multiset(merged) == multiset(all)
    ensures dict == Keys(merged) && Ascending(le, dict)
  {
    hide TotalOrder, AllSorted, Sorted, Bag, Ascending, NumberedOrder, Distinct;
    merged := MergeRuns(order, runs);
    dict := MergeRuns(le, dicts);
    KeysMultiset(merged, all);
    KeysSorted(le, merged);
    SortedDistinctAscends(le, dict, Keys(all));
    SortedDistinctAscends(le, Keys(merged), Keys(all));
    AscendingIsUnique(le, dict, Keys(merged));
  }

  lemma KeysSorted<K(!new)>(le: (K, K) -> bool, listed: seq<(K, nat)>)
    requires TotalOrder(le) && Sorted(NumberedOrder(le), listed)
    ensures Sorted(le, Keys(listed))
  {
    forall i, j | 0 <= i < j < |listed| ensures le(listed[i].0, listed[j].0) {
      assert NumberedOrder(le)(listed[i], listed[j]);
    }
  }

  lemma {:induction false} KeysMultiset<K(!new)>(a: seq<(K, nat)>, b: seq<(K, nat)>)
    requires multiset(a) == multiset(b)
    ensures multiset(Keys(a)) == multiset(Keys(b))
    decreases |a|
  {
    hide Keys;
    if a == [] {
      SameMultisetSameElements(a, b);
    } else {
      var i := HeadIn(a, b);
      KeysMultiset(a[..0] + a[0 + 1..], b[..i] + b[i + 1..]);
      KeysWithout(a, 0);
      KeysWithout(b, i);
    }
  }

  /** The first element of a list, in another list with the same elements. */
  lemma HeadIn<T>(a: seq<T>, b: seq<T>) returns (i: nat)
    requires multiset(a) == multiset(b) && a != []
    ensures i < |b| && b[i] == a[0] && multiset(a[..0] + a[0 + 1..]) == multiset(b[..i] + b[i + 1..])
  {
    assert a[0] in multiset(b);
    i :| 0 <= i < |b| && b[i] == a[0];
    TakenOut(a, 0);
    TakenOut(b, i);
  }

  lemma TakenOut<T>(s: seq<T>, i: nat)
    requires i < |s|
    ensures multiset(s[..i] + s[i + 1..]) == multiset(s) - multiset{s[i]} && s[i] in multiset(s)
  {
    assert s == s[..i] + [s[i]] + s[i + 1..];
  }

  lemma KeysWithout<K>(s: seq<(K, nat)>, i: nat)
    requires i < |s|
    ensures multiset(Keys(s)) == multiset(Keys(s[..i] + s[i + 1..])) + multiset{s[i].0}
  {
    assert Keys(s) == Keys(s[..i]) + [s[i].0] + Keys(s[i + 1..]);
    assert Keys(s[..i] + s[i + 1..]) == Keys(s[..i]) + Keys(s[i + 1..]);
  }

  lemma NumbersKeysAscend<K(!new)>(le: (K, K) -> bool, table: seq<K>, which: K -> bool, keep: set<nat>,
      listed: seq<(K, nat)>)
    requires TotalOrder(le) && Distinct(table) && Numbers(table, which, keep, listed)
    requires Ascending(NumberedOrder(le), listed)
    ensures Ascending(le, Keys(listed))
  {
    hide TotalOrder, HasId;
    forall i, j | 0 <= i < j < |listed| ensures le(listed[i].0, listed[j].0) && listed[i].0 != listed[j].0 {
      assert NumberedOrder(le)(listed[i], listed[j]) && listed[i] != listed[j];
      assert table[listed[i].1 - 1] == listed[i].0 && table[listed[j].1 - 1] == listed[j].0;
    }
  }

  /* ---- the id map ---- */

  /** The ids, counted from zero, in the order their entries ended up in. */
  function TreeOf<K>(listed: seq<(K, nat)>): (r: seq<nat>)
    requires forall i :: 0 <= i < |listed| ==> listed[i].1 >= 1
    ensures |r| == |listed| && forall i :: 0 <= i < |r| ==> r[i] == listed[i].1 - 1
  {
    seq(|listed|, i requires 0 <= i < |listed| => TreeEntry(listed[i]))
  }

  function TreeEntry<K>(x: (K, nat)): nat
    requires x.1 >= 1
  {
    x.1 - 1
  }

  lemma TreeRange<K(!new)>(table: seq<K>, listed: seq<(K, nat)>, v: nat)
    requires Lists(table, Ids(|table|), listed)
    ensures forall i :: 0 <= i < |listed| ==> listed[i].1 >= 1
    ensures v in TreeOf(listed) <==> v < |table|
  {
    var tree := TreeOf(listed);
    if v < |table| {
      assert v + 1 in Ids(|table|);
      var i :| 0 <= i < |listed| && listed[i].1 == v + 1;
      assert tree[i] == v;
    }
    if v in tree {
      var i :| 0 <= i < |tree| && tree[i] == v;
      assert listed[i].1 in Ids(|table|);
    }
  }

  lemma TreeDistinct<K>(listed: seq<(K, nat)>)
    requires IdsDistinct(listed) && forall i :: 0 <= i < |listed| ==> listed[i].1 >= 1
    ensures Distinct(TreeOf(listed))
  {
  }

  lemma TreePermutes<K(!new)>(table: seq<K>, listed: seq<(K, nat)>)
    requires Lists(table, Ids(|table|), listed) && IdsDistinct(listed)
    ensures forall i :: 0 <= i < |listed| ==> listed[i].1 >= 1
    ensures |listed| == |table| && IdMap(Some(TreeOf(listed))).Permutes(|listed|)
  {
    hide Ids, Lists, IdsDistinct, TreeOf, Distinct;
    ListedIdsPositive(table, Ids(|table|), listed);
    var tree, n := TreeOf(listed), |table|;
    TreeDistinct(listed);
    forall v: nat ensures v in Elements(tree) <==> v in Below(n) {
      TreeRange(table, listed, v);
    }
    assert Elements(tree) == Below(n);
    DistinctSize(tree);
    forall i | 0 <= i < n ensures tree[i] < n {
      assert tree[i] in Elements(tree);
    }
  }

  /** Listing every id of a table once gives a permutation, under which the table is what one
      reads back by id. */
  lemma TreeInverts<K(!new)>(table: seq<K>, listed: seq<(K, nat)>)
    requires Lists(table, Ids(|table|), listed) && IdsDistinct(listed)
    ensures |listed| == |table| && IdMap(Some(TreeOf(listed))).Permutes(|listed|)
    ensures Permuted(Keys(listed), IdMap(Some(TreeOf(listed)))) == table
  {
    hide IdMap.Permutes, Permuted, Ids, Lists;
    TreePermutes(table, listed);
    var r := Permuted(Keys(listed), IdMap(Some(TreeOf(listed))));
    SameLength(Keys(listed), IdMap(Some(TreeOf(listed))));
    forall i | 0 <= i < |table| ensures r[i] == table[i] {
      TreeInvertsAt(table, listed, i + 1);
    }
  }

  lemma TreeInvertsAt<K(!new)>(table: seq<K>, listed: seq<(K, nat)>, id: nat)
    requires Lists(table, Ids(|table|), listed) && IdsDistinct(listed) && 1 <= id <= |table|
    ensures |listed| == |table| && IdMap(Some(TreeOf(listed))).Permutes(|listed|)
    ensures Permuted(Keys(listed), IdMap(Some(TreeOf(listed))))[id - 1] == table[id - 1]
  {
    hide IdMap.Permutes, Permuted, IdsDistinct, Ids, IdMap.OuterToInner;
    TreePermutes(table, listed);
    var m := IdMap(Some(TreeOf(listed)));
    IdMapInverts(m, |table|, id);
    var i := m.OuterToInner(id);
    assert m.InnerToOuter(i) == TreeOf(listed)[i - 1] + 1;
    assert Permuted(Keys(listed), m)[id - 1] == Keys(listed)[i - 1];
  }

  function Strings(es: seq<Entry>): (r: seq<Str>)
    ensures |r| == |es| && forall i :: 0 <= i < |r| ==> r[i] == es[i].str
  {
    seq(|es|, i requires 0 <= i < |es| => es[i].str)
  }

  lemma StringsAscend(es: seq<Entry>)
    requires Ascending(EntryOrdering(), es) && forall i :: 0 <= i < |es| ==> IsNode(es[i])
    ensures Ascending(StrOrdering(), Strings(es))
  {
    hide TotalOrder;
    forall i, j | 0 <= i < j < |es| ensures StrOrdering()(es[i].str, es[j].str) && es[i].str != es[j].str {
      assert IsNode(es[i]) && IsNode(es[j]) && EntryOrdering()(es[i], es[j]) && es[i] != es[j];
    }
  }

  /** A dictionary from sorted nodes, values and predicates; the map of the predicates may be no
      permutation. */
  lemma AssembledDictionary(d: Dictionary, nodes: seq<(Entry, nat)>, values: seq<(Entry, nat)>)
    requires Ascending(EntryOrdering(), Keys(nodes)) && Ascending(EntryOrdering(), Keys(values))
    requires forall i :: 0 <= i < |nodes| ==> IsNode(nodes[i].0)
    requires forall i :: 0 <= i < |values| ==> IsValue(values[i].0)
    requires d.nodes == Strings(Keys(nodes)) && d.values == Keys(values) && Ascending(StrOrdering(), d.predicates)
    requires d.nodeValueIds.Permutes(d.Count())
    ensures d.Valid() <==> d.predicateIds.Permutes(|d.predicates|)
    ensures d.Entries() == Keys(nodes + values)
  {
    hide Ascending, IdMap.Permutes, Permuted, Dictionary.Entries, Keys;
    StringsAscend(Keys(nodes));
    forall i | 0 <= i < |d.values| ensures d.values[i].Value? {
      assert IsValue(values[i].0);
    }
    AssembledEntries(d, nodes, values);
  }

  lemma AssembledEntries(d: Dictionary, nodes: seq<(Entry, nat)>, values: seq<(Entry, nat)>)
    requires forall i :: 0 <= i < |nodes| ==> IsNode(nodes[i].0)
    requires d.nodes == Strings(Keys(nodes)) && d.values == Keys(values)
    ensures d.Entries() == Keys(nodes + values)
  {
    hide Dictionary.Entries, Keys;
    var es := d.Entries();
    forall i | 0 <= i < |es| ensures es[i] == Keys(nodes + values)[i] {
      EntryPlaces(d, i + 1);
      if i < |nodes| {
        assert IsNode(nodes[i].0);
      }
    }
  }

  /** The map as stored: for every entry of the sorted dictionary, in its order, the id it has in
      the table, counted from zero. */
  ghost predicate WritesIds<K(!new)>(m: IdMap, es: seq<K>, table: seq<K>) {
    && m.tree.Some? && |m.tree.value| == |es| == |table|
    && forall k :: 0 <= k < |es| ==> m.tree.value[k] < |table| && table[m.tree.value[k]] == es[k]
  }

  /** The predicates as stored: all of them, sorted, and for each, counted from zero, the number it
      was given, right or wrong. */
  ghost predicate WritesNumbers(d: Dictionary, ds: seq<Dictionary>, maps: seq<IdMap>) {
    && Ascending(StrOrdering(), d.predicates) && d.predicateIds.tree.Some?
    && |d.predicates| == |d.predicateIds.tree.value| == PredicatesBefore(ds, |ds|)
    && forall k :: 0 <= k < |d.predicates| ==>
      Numbered(ds, maps, |ds|, d.predicates[k], d.predicateIds.tree.value[k] + 1)
  }

  lemma NumbersWritten(d: Dictionary, ds: seq<Dictionary>, maps: seq<IdMap>, all: seq<(Str, nat)>,
      merged: seq<(Str, nat)>)
    requires AllNumbered(ds, maps, |ds|, all) && |all| == PredicatesBefore(ds, |ds|)
    requires multiset(merged) == multiset(all) && forall i :: 0 <= i < |merged| ==> merged[i].1 >= 1
    requires Ascending(StrOrdering(), d.predicates) && d.predicates == Keys(merged) &&
      d.predicateIds == IdMap(Some(TreeOf(merged)))
    ensures WritesNumbers(d, ds, maps)
  {
    hide Ascending, Numbered, PredicatesBefore;
    SameMultisetSameElements(merged, all);
    assert |merged| == |multiset(merged)| == |all|;
    forall k | 0 <= k < |d.predicates|
      ensures Numbered(ds, maps, |ds|, d.predicates[k], d.predicateIds.tree.value[k] + 1)
    {
      assert merged[k] in Elements(all);
      var m :| 0 <= m < |all| && all[m] == merged[k];
    }
  }

  lemma ReadIsWritten<K(!new)>(m: IdMap, es: seq<K>, table: seq<K>)
    requires m.tree.Some? && m.Permutes(|es|) && Permuted(es, m) == table
    ensures WritesIds(m, es, table)
  {
    hide Permuted;
    SameLength(es, m);
    forall k | 0 <= k < |es| ensures m.tree.value[k] < |table| && table[m.tree.value[k]] == es[k] {
      PermutedAt(es, m, k + 1);
    }
  }

  /** The rolled-up dictionary (`dictionary_rollup` and `construct_idmaps_from_structures`) gives
      every node and value the id it had. It does so for the predicates exactly when each of them
      was read under a map that says what its own map says. */
  method RollupDictionary(ds: seq<Dictionary>, predicateMaps: seq<IdMap>) returns (d: Dictionary)
    requires AllValid(ds) && |predicateMaps| == |ds| && Distinct(Outers(ds)) && Distinct(OuterPredicatesOf(ds))
    ensures d.nodeValueIds.Permutes(d.Count()) && Permuted(d.Entries(), d.nodeValueIds) == Outers(ds)
    ensures WritesIds(d.nodeValueIds, d.Entries(), Outers(ds))
    ensures AllTell(ds, predicateMaps) ==> WritesIds(d.predicateIds, d.predicates, OuterPredicatesOf(ds))
    ensures WritesNumbers(d, ds, predicateMaps)
    ensures d.Valid() && d.OuterPredicates() == OuterPredicatesOf(ds) <==> AllTell(ds, predicateMaps)
  {
    hide AllValid, Dictionary.Valid, Dictionary.Outer, Dictionary.OuterPredicates, Outers, OuterPredicatesOf,
      Gathered, TotalOrder, EntryOrdering, StrOrdering, Distinct, Ascending, Sorted, Numbers, Lists, IdMap.Permutes,
      Permuted, AllTell, SameKeys, Ids, NumberedOrder, Dictionary.Entries, WritesIds,
      WritesNumbers, AllNumbered, TreeOf;
    ghost var table, keep := Outers(ds), Ids(|Outers(ds)|);
    var nodeRuns, nodeDicts, allNodes := NodeRuns(ds);
    NumbersKeysDistinct(table, IsNode, keep, allNodes);
    var nodes, nodeDict := MergeGathered(EntryOrdering(), nodeRuns, nodeDicts, allNodes,
      NumberedOrder(EntryOrdering()));
    NumbersSorted(EntryOrdering(), table, IsNode, keep, allNodes, nodes);
    var valueRuns, valueDicts, allValues := ValueRuns(ds);
    NumbersKeysDistinct(table, IsValue, keep, allValues);
    var values, valueDict := MergeGathered(EntryOrdering(), valueRuns, valueDicts, allValues,
      NumberedOrder(EntryOrdering()));
    NumbersSorted(EntryOrdering(), table, IsValue, keep, allValues, values);
    var predicateRuns, predicateDicts, allPredicates, own := PredicateRuns(ds, predicateMaps);
    SameKeysDistinct(OuterPredicatesOf(ds), allPredicates, own);
    var predicates, predicateDict := MergeGathered(StrOrdering(), predicateRuns, predicateDicts, allPredicates,
      NumberedOrder(StrOrdering()));
    NodesThenValues(table, keep, nodes, values);
    ListedIdsPositive(table, keep, nodes + values);
    TreeInverts(table, nodes + values);
    WhichQualify(table, IsNode, keep, nodes);
    WhichQualify(table, IsValue, keep, values);
    NumbersPositive(allPredicates, own, predicates);
    d := Dictionary(Strings(nodeDict), predicateDict, valueDict, IdMap(Some(TreeOf(nodes + values))),
        IdMap(Some(TreeOf(predicates))));
    AssembledDictionary(d, nodes, values);
    WrittenIff(OuterPredicatesOf(ds), allPredicates, own, predicates);
    OuterPredicatesAre(d);
    NumbersWritten(d, ds, predicateMaps, allPredicates, predicates);
    ReadIsWritten(d.nodeValueIds, d.Entries(), Outers(ds));
    if AllTell(ds, predicateMaps) {
      ReadIsWritten(d.predicateIds, d.predicates, OuterPredicatesOf(ds));
    }
  }

  lemma OuterPredicatesAre(d: Dictionary)
    ensures d.Valid() ==>
      d.predicateIds.Permutes(|d.predicates|) && d.OuterPredicates() == Permuted(d.predicates, d.predicateIds)
  {
  }

  lemma SameKeysDistinct<K(!new)>(table: seq<K>, all: seq<(K, nat)>, own: seq<(K, nat)>)
    requires Distinct(table) && Numbers(table, Every, Ids(|table|), own) && SameKeys(all, own)
    ensures Distinct(Keys(all))
  {
    hide Numbers, Ids;
    NumbersKeysDistinct(table, Every, Ids(|table|), own);
    assert Keys(all) == Keys(own);
  }

  lemma NumbersPositive<K(!new)>(all: seq<(K, nat)>, own: seq<(K, nat)>, merged: seq<(K, nat)>)
    requires SameKeys(all, own) && multiset(merged) == multiset(all)
    ensures forall i :: 0 <= i < |merged| ==> merged[i].1 >= 1
  {
    SameMultisetSameElements(merged, all);
    forall i | 0 <= i < |merged| ensures merged[i].1 >= 1 {
      assert merged[i] in Elements(all);
    }
  }

  /** The map written inverts to the table exactly when every string was given its own number. */
  lemma WrittenIff<K(!new)>(table: seq<K>, all: seq<(K, nat)>, own: seq<(K, nat)>, merged: seq<(K, nat)>)
    requires Distinct(table) && Numbers(table, Every, Ids(|table|), own) && SameKeys(all, own)
    requires multiset(merged) == multiset(all) && forall i :: 0 <= i < |merged| ==> merged[i].1 >= 1
    ensures var m := IdMap(Some(TreeOf(merged)));
      m.Permutes(|Keys(merged)|) && Permuted(Keys(merged), m) == table <==> all == own
  {
    hide Distinct, Numbers, Ids, IdMap.Permutes, Permuted, SameKeys, TreeOf;
    var m := IdMap(Some(TreeOf(merged)));
    if all == own {
      NumbersPermuted(table, Every, Ids(|table|), own, merged);
      NumbersIsLists(table, Ids(|table|), merged);
      TreeInverts(table, merged);
    }
    if m.Permutes(|Keys(merged)|) && Permuted(Keys(merged), m) == table {
      OwnNumbers(table, own);
      SameLengths(all, own);
      forall i | 0 <= i < |all| ensures all[i] == own[i] {
        NumberWritten(table, all, merged, i);
        SameNumber(table, all, own, i);
      }
    }
  }

  lemma SameLengths<K(!new)>(all: seq<(K, nat)>, own: seq<(K, nat)>)
    requires SameKeys(all, own)
    ensures |all| == |own|
  {
  }

  lemma OwnNumbers<K(!new)>(table: seq<K>, own: seq<(K, nat)>)
    requires Numbers(table, Every, Ids(|table|), own)
    ensures forall i :: 0 <= i < |own| ==> 1 <= own[i].1 <= |table| && table[own[i].1 - 1] == own[i].0
  {
    hide HasId, IdsDistinct, Ids;
  }

  /** Reading a number back from the map written gives the string it was written for. */
  lemma NumberWritten<K(!new)>(table: seq<K>, all: seq<(K, nat)>, merged: seq<(K, nat)>, i: nat)
    requires multiset(merged) == multiset(all) && i < |all| && forall i :: 0 <= i < |merged| ==> merged[i].1 >= 1
    requires var m := IdMap(Some(TreeOf(merged)));
      m.Permutes(|Keys(merged)|) && Permuted(Keys(merged), m) == table
    ensures 1 <= all[i].1 <= |table| && table[all[i].1 - 1] == all[i].0
  {
    hide IdMap.Permutes, Permuted;
    var m := IdMap(Some(TreeOf(merged)));
    SameMultisetSameElements(merged, all);
    assert all[i] in Elements(merged);
    var j :| 0 <= j < |merged| && merged[j] == all[i];
    SameLength(Keys(merged), m);
    PermutedAt(Keys(merged), m, j + 1);
    assert m.InnerToOuter(j + 1) == TreeOf(merged)[j] + 1;
  }

  lemma SameNumber<K(!new)>(table: seq<K>, all: seq<(K, nat)>, own: seq<(K, nat)>, i: nat)
    requires Distinct(table) && SameKeys(all, own) && i < |all|
    requires 1 <= all[i].1 <= |table| && table[all[i].1 - 1] == all[i].0
    requires 1 <= own[i].1 <= |table| && table[own[i].1 - 1] == own[i].0
    ensures all[i] == own[i]
  {
  }

  lemma ListedIdsPositive<K(!new)>(table: seq<K>, keep: set<nat>, listed: seq<(K, nat)>)
    requires Lists(table, keep, listed)
    ensures forall i :: 0 <= i < |listed| ==> listed[i].1 >= 1
  {
  }

  lemma WhichQualify<K(!new)>(table: seq<K>, which: K -> bool, keep: set<nat>, listed: seq<(K, nat)>)
    requires Numbers(table, which, keep, listed)
    ensures forall i :: 0 <= i < |listed| ==> which(listed[i].0)
  {
  }

  /** Rolling a layer up into a base layer keeps every id and every triple. */
  method DeltaRollup(layer: InternalLayer, name: Name) returns (r: InternalLayer)
    requires Grounded(layer)
    ensures r.Base? && r.name == name && BaseFiles(r)
    ensures TablesOf(r) == TablesOf(layer) && r.TripleSet() == layer.TripleSet()
    ensures Meaning(r) == Meaning(layer)
  {
    hide InternalLayer.Valid, InternalLayer.TripleSet, Dictionary.Valid, Dictionary.Outer, Dictionary.OuterPredicates,
      Outers, OuterPredicatesOf, AllValid, DictsValid, Distinct, Table, PredicateTable, Increasing, Filter, KnowsAll,
      Elements, Kept, Meaning, AllTell;
    var ds := ImmediateDicts(layer);
    OwnMapsTell(ds);
    var d := RollupDictionary(ds, PredicateMaps(ds));
    OuterIs(d);
    var ts := AllTriples(layer);
    AllReals(layer, ts);
    r := BuildBaseLayer(name, d, ts);
    BaseTables(r);
    SameMeaning(layer, r);
  }

  lemma OuterIs(d: Dictionary)
    requires d.Valid()
    ensures d.nodeValueIds.Permutes(d.Count()) && d.Outer() == Permuted(d.Entries(), d.nodeValueIds)
  {
  }

  lemma OwnMapsTell(ds: seq<Dictionary>)
    ensures AllTell(ds, PredicateMaps(ds))
  {
  }

  lemma AllReals(layer: InternalLayer, ts: seq<Triple>)
    requires layer.Valid() && Answers(BySubject, Always(), layer.TripleSet(), ts)
    ensures Filter(Nonzero, ts) == ts && Elements(ts) == layer.TripleSet() && Increasing(BySubject, ts)
  {
    hide InternalLayer.Valid, InternalLayer.TripleSet;
    forall i | 0 <= i < |ts| ensures Nonzero(ts[i]) {
      assert ts[i] in Elements(ts);
      TriplesAreReal(layer, ts[i]);
    }
    FilterKeepsAll(Nonzero, ts);
    assert Kept(Always(), layer.TripleSet()) == layer.TripleSet();
  }

  lemma BaseTables(r: InternalLayer)
    requires r.Base? && r.dict.Valid()
    ensures DictsValid(r) && Table(r) == r.dict.Outer() && PredicateTable(r) == r.dict.OuterPredicates()
  {
    hide Dictionary.Valid, Dictionary.Outer, Dictionary.OuterPredicates;
  }
}
