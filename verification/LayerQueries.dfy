/** The answers of a layer: triple queries, membership, counts and the single-triple lookup,
    each against the fold of the stack. */
module LayerQueries {
  import opened Sorting
  import opened Triples
  import opened StackSemantics
  import opened AdjacencyLists
  import opened TripleIndexes
  import opened SubjectIterators
  import opened PredicateIterators
  import opened ObjectIndexes
  import opened ObjectIterators
  import opened LayerIterators
  import opened MergedIterators
  import opened InternalLayers
  import opened Lookups
  import opened Queries

  function Always(): Triple -> bool {
    (t: Triple) => true
  }

  function SubjectIs(s: nat): Triple -> bool {
    (t: Triple) => t.s == s
  }

  function ObjectIs(o: nat): Triple -> bool {
    (t: Triple) => t.o == o
  }

  /** `out` is exactly the wanted part of `all`, each triple once and in order. */
  ghost predicate Answers(ord: Order, wanted: Triple -> bool, all: set<Triple>, out: seq<Triple>) {
    Increasing(ord, out) && Elements(out) == Kept(wanted, all)
  }

  /** What a query keeps comes first among what it enumerates, and nothing wanted is missed. */
  lemma QueryRegion(kind: Kind, keep: Triple -> bool, all: set<Triple>)
    requires match kind
      case Subjects(s) => (s == 0 && keep == Always()) || keep == SubjectIs(s)
      case Pair(s, p) => keep == PairIs(s, p)
      case Predicate(p) => p > 0 && keep == Always()
      case Objects(o) => keep == ObjectIs(o)
    ensures ComesFirst(OrderOf(kind), ScopeOf(kind), keep, Kept(Region(kind), all))
    ensures Kept(keep, Kept(Region(kind), all)) == if kind.Predicate? then Kept(PredicateIs(kind.p), all)
      else Kept(keep, all)
  {
  }

  method AllTriples(layer: InternalLayer) returns (out: seq<Triple>)
    requires layer.Valid()
    ensures Answers(BySubject, Always(), layer.TripleSet(), out)
  {
    hide Kept, ComesFirst, Increasing, Elements, InternalLayer.Valid, InternalLayer.TripleSet, MergedIterator.Valid,
      MergedIterator.Outstanding, AllYield;
    var m := FromLayer(layer, Subjects(0));
    QueryRegion(Subjects(0), Always(), layer.TripleSet());
    out := CollectWhile(m, Always());
  }

  method TriplesS(layer: InternalLayer, s: nat) returns (out: seq<Triple>)
    requires layer.Valid()
    ensures Answers(BySubject, SubjectIs(s), layer.TripleSet(), out)
  {
    hide Kept, ComesFirst, Increasing, Elements, InternalLayer.Valid, InternalLayer.TripleSet, MergedIterator.Valid,
      MergedIterator.Outstanding, AllYield;
    var m := FromLayer(layer, Subjects(s));
    QueryRegion(Subjects(s), SubjectIs(s), layer.TripleSet());
    out := CollectWhile(m, SubjectIs(s));
  }

  method TriplesSP(layer: InternalLayer, s: nat, p: nat) returns (out: seq<Triple>)
    requires layer.Valid()
    ensures Answers(BySubject, PairIs(s, p), layer.TripleSet(), out)
  {
    hide Kept, ComesFirst, Increasing, Elements, InternalLayer.Valid, InternalLayer.TripleSet, MergedIterator.Valid,
      MergedIterator.Outstanding, AllYield;
    var m := FromLayer(layer, Pair(s, p));
    QueryRegion(Pair(s, p), PairIs(s, p), layer.TripleSet());
    out := CollectWhile(m, PairIs(s, p));
  }

  method TriplesO(layer: InternalLayer, o: nat) returns (out: seq<Triple>)
    requires layer.Valid()
    ensures Answers(ByObject, ObjectIs(o), layer.TripleSet(), out)
  {
    hide Kept, ComesFirst, Increasing, Elements, InternalLayer.Valid, InternalLayer.TripleSet, MergedIterator.Valid,
      MergedIterator.Outstanding, AllYield;
    var m := FromLayer(layer, Objects(o));
    QueryRegion(Objects(o), ObjectIs(o), layer.TripleSet());
    out := CollectWhile(m, ObjectIs(o));
  }

  /** Some layer of the stack holds a stub: an id no triple of a dense index starts from. */
  ghost predicate HasStub(layer: InternalLayer) {
    exists i :: 0 <= i < |layer.Indexes()| && 0 in layer.Indexes()[i].pos.x.sp.nums
  }

  /** The triples of a predicate. Predicate 0 is none, yet its wavelet lookup lists the stubs,
      from which the iterator runs into triples of other predicates: the answer for 0 is right,
      that is empty, if and only if no layer of the stack has a stub. */
  method TriplesP(layer: InternalLayer, p: nat) returns (out: seq<Triple>)
    requires layer.Valid()
    ensures p > 0 ==> Answers(BySubject, PredicateIs(p), layer.TripleSet(), out)
    ensures p == 0 ==> (Answers(BySubject, PredicateIs(p), layer.TripleSet(), out) <==> !HasStub(layer))
  {
    hide Kept, ComesFirst, Answers, InternalLayer.Valid, InternalLayer.TripleSet, Mergeable, AllValid, Rests,
      Footprint, LayerIterator.Repr, MergedIterator.Outstanding, AllYield, NothingLeft, HasStub;
    var m := FromLayer(layer, Predicate(p));
    if p == 0 {
      StubsLeft(layer, Rests(m.positives), Rests(m.negatives));
    } else {
      QueryRegion(Predicate(p), Always(), layer.TripleSet());
    }
    out := CollectWhile(m, Always());
    if p == 0 {
      EmptyAnswer(layer, out);
    } else {
      assert Answers(BySubject, PredicateIs(p), layer.TripleSet(),
        out) by { IsAnswer(PredicateIs(p), layer.TripleSet(), out); }
    }
  }

  lemma IsAnswer(wanted: Triple -> bool, all: set<Triple>, out: seq<Triple>)
    requires Increasing(BySubject, out) && Elements(out) == Kept(wanted, all)
    ensures Answers(BySubject, wanted, all, out)
  {
  }

  lemma EmptyAnswer(layer: InternalLayer, out: seq<Triple>)
    requires layer.Valid()
    ensures Answers(BySubject, PredicateIs(0), layer.TripleSet(), out) <==> out == []
  {
    hide InternalLayer.Valid, InternalLayer.TripleSet;
    NoPredicateZero(layer);
    EmptyHasNoElements(out);
  }

  /** No triple has predicate 0. */
  lemma NoPredicateZero(layer: InternalLayer)
    requires layer.Valid()
    ensures Kept(PredicateIs(0), layer.TripleSet()) == {}
  {
    forall t | t in layer.TripleSet() ensures t.p != 0 {
      TriplesAreReal(layer, t);
    }
  }

  lemma TriplesAreReal(layer: InternalLayer, t: Triple)
    requires layer.Valid() && t in layer.TripleSet()
    ensures t.IsReal()
  {
    hide ObjectIndex.Shape, TripleIndex.Listing, Ascending;
    var i := FoldIsAdded(layer.Deltas(), t);
    assert layer.Indexes()[i].Coherent();
    var x := layer.Indexes()[i].pos.x;
    ListingIncreases(x);
    var k :| 0 <= k < |x.Listing()| && x.Listing()[k] == t;
  }

  /** For predicate 0 the removal streams are empty, being sparse, and the addition streams are
      empty exactly where there is no stub. */
  lemma StubsLeft(layer: InternalLayer, pos: seq<seq<Triple>>, neg: seq<seq<Triple>>)
    requires layer.Valid() && AllYield(Predicate(0), layer.Indexes(), pos, neg)
    ensures NothingLeft(neg) && (NothingLeft(pos) <==> !HasStub(layer))
  {
    hide TripleIndex.Coherent, ObjectIndex.Coherent, WellFormed, Runs, Positions;
    var indexes := layer.Indexes();
    forall i | 0 <= i < |indexes| ensures neg[i] == [] && (pos[i] == [] <==> 0 !in indexes[i].pos.x.sp.nums) {
      assert indexes[i].Coherent();
      StubRuns(indexes[i].pos);
      if indexes[i].neg.Some? {
        StubRuns(indexes[i].neg.value);
      }
    }
  }

  lemma StubRuns(oi: ObjectIndex)
    requires oi.Coherent()
    ensures var positions := Positions(oi.x.sp.nums, 0, |oi.x.sp.nums|);
      Runs(oi.x, positions) == [] <==> 0 !in oi.x.sp.nums
    ensures oi.x.subjects.Some? ==> 0 !in oi.x.sp.nums
  {
    hide Ascending, Elements, StubsAlone, GroupsAscend, TripleIndex.StubsMatch, ObjectIndex.ObjectsAscend, HeadRun,
      TripleIndex.From, Rank;
    var nums := oi.x.sp.nums;
    var positions := Positions(nums, 0, |nums|);
    if 0 in nums {
      var j :| 0 <= j < |nums| && nums[j] == 0;
      PositionsComplete(nums, 0, |nums|, j);
      SomethingFollows(oi.x, positions[0]);
      var rest := oi.x.From(oi.x.spo.OffsetFor(positions[0] + 1));
      HeadRunStep(rest);
    } else {
      PositionsEmpty(nums, 0, |nums|);
    }
  }

  /* ---- membership ---- */

  /** A triple exists in a layer exactly when it is in the fold of the stack. */
  method TripleExists(layer: InternalLayer, s: nat, p: nat, o: nat) returns (found: bool)
    requires layer.Valid()
    ensures found <==> Triple(s, p, o) in layer.TripleSet()
  {
    hide ObjectIndex.Coherent, TripleIndex.Listing, WellFormed, Fold;
    var t := Triple(s, p, o);
    if s == 0 || p == 0 || o == 0 {
      if t in layer.TripleSet() {
        TriplesAreReal(layer, t);
      }
      return false;
    }
    var l := Some(layer);
    ghost var i := 0;
    ghost var deltas := layer.Deltas();
    while l.Some?
      invariant i <= |deltas| && (l.Some? ==> i < |deltas|)
      invariant layer.Indexes()[i..] == if l.Some? then l.value.Indexes() else []
      invariant forall k :: 0 <= k < i ==> t !in deltas[k].pos && t !in deltas[k].neg
      decreases if l.Some? then l.value.Size() + 1 else 0
    {
      var index := LayerIndex(l.value.Additions(), l.value.Removals());
      IndexAt(layer, i, l.value);
      var added := LayerTripleExists(index.pos.x, s, p, o);
      if added {
        FirstMentionDecides(deltas, i, t);
        return true;
      }
      if index.neg.Some? {
        var removed := LayerTripleExists(index.neg.value.x, s, p, o);
        if removed {
          FirstMentionDecides(deltas, i, t);
          return false;
        }
      }
      l := l.value.ImmediateParent();
      i := i + 1;
    }
    NeverMentioned(deltas, t);
    return false;
  }

  lemma NeverMentioned(stack: Stack, t: Triple)
    requires forall k :: 0 <= k < |stack| ==> t !in stack[k].pos
    ensures t !in Fold(stack)
  {
    if t in Fold(stack) {
      var i := FoldIsAdded(stack, t);
    }
  }

  lemma IndexAt(layer: InternalLayer, i: nat, l: InternalLayer)
    requires layer.Coherent() && i < |layer.Indexes()| && layer.Indexes()[i..] == l.Indexes()
    ensures var index := LayerIndex(l.Additions(), l.Removals());
      && index == layer.Indexes()[i] && index.Coherent() && index.pos.x.Coherent()
      && (index.neg.Some? ==> index.neg.value.x.Coherent())
      && layer.Deltas()[i] == index.AsDelta()
      && layer.Indexes()[i + 1..] == (match l.ImmediateParent() case None => [] case Some(p) => p.Indexes())
      && (l.ImmediateParent().Some? ==> i + 1 < |layer.Indexes()|)
  {
    var index := LayerIndex(l.Additions(), l.Removals());
    assert l.Indexes()[0] == index;
    assert layer.Indexes()[i..][0] == layer.Indexes()[i];
    assert layer.Indexes()[i..][1..] == layer.Indexes()[i + 1..];
    assert l.Indexes()[1..] == (match l.ImmediateParent() case None => [] case Some(p) => p.Indexes());
  }

  /* ---- one triple of a pair ---- */

  /** The objects that the topmost `n` layers remove from the pair. */
  ghost predicate ExcludedBy(stack: Stack, n: nat, s: nat, p: nat, exclude: set<nat>)
    requires n <= |stack|
  {
    forall o :: o in exclude <==> exists k :: 0 <= k < n && Triple(s, p, o) in stack[k].neg
  }

  /** Whatever the topmost `n` layers add to the pair, a layer above the addition removes. */
  ghost predicate NoneUpto(stack: Stack, n: nat, s: nat, p: nat)
    requires n <= |stack|
  {
    forall k, o :: 0 <= k < n && Triple(s, p, o) in stack[k].pos ==>
      exists j :: 0 <= j < k && Triple(s, p, o) in stack[j].neg
  }

  lemma ExcludeMore(stack: Stack, n: nat, s: nat, p: nat, exclude: set<nat>, more: set<nat>)
    requires n < |stack| && ExcludedBy(stack, n, s, p, exclude)
    requires forall o :: o in more <==> Triple(s, p, o) in stack[n].neg
    ensures ExcludedBy(stack, n + 1, s, p, exclude + more)
  {
  }

  lemma NoneMore(stack: Stack, n: nat, s: nat, p: nat, exclude: set<nat>, objects: set<nat>)
    requires n < |stack| && NoneUpto(stack, n, s, p) && ExcludedBy(stack, n, s, p, exclude)
    requires forall o :: o in objects <==> Triple(s, p, o) in stack[n].pos
    requires objects <= exclude
    ensures NoneUpto(stack, n + 1, s, p)
  {
    forall k, o | 0 <= k < n + 1 && Triple(s, p, o) in stack[k].pos
      ensures exists j :: 0 <= j < k && Triple(s, p, o) in stack[j].neg
    {
      if k == n {
        assert o in objects && o in exclude;
      }
    }
  }

  lemma FoundInFold(stack: Stack, n: nat, s: nat, p: nat, exclude: set<nat>, o: nat)
    requires n < |stack| && ExcludedBy(stack, n, s, p, exclude) && o !in exclude && Triple(s, p, o) in stack[n].pos
    ensures Triple(s, p, o) in Fold(stack)
  {
    AddedNotRemoved(stack, n, Triple(s, p, o));
  }

  lemma NoneInFold(stack: Stack, s: nat, p: nat, t: Triple)
    requires NoneUpto(stack, |stack|, s, p) && InPair(s, p, t)
    ensures t !in Fold(stack)
  {
    if t in Fold(stack) {
      var i := FoldIsAdded(stack, t);
    }
  }

  lemma ObjectsOf(index: LayerIndex, s: nat, p: nat)
    requires index.Coherent()
    ensures forall o :: o in PairObjects(index.pos.x, s, p) <==> Triple(s, p, o) in index.AsDelta().pos
    ensures index.neg.Some? ==> forall o :: o in PairObjects(index.neg.value.x, s, p) <==>
      Triple(s, p, o) in index.AsDelta().neg
  {
    hide TripleIndex.Listing, PairObjects;
    forall o ensures o in PairObjects(index.pos.x, s, p) <==> Triple(s, p, o) in index.AsDelta().pos {
      PairObjectsAre(index.pos.x, s, p, o);
    }
    if index.neg.Some? {
      forall o ensures o in PairObjects(index.neg.value.x, s, p) <==> Triple(s, p, o) in index.AsDelta().neg {
        PairObjectsAre(index.neg.value.x, s, p, o);
      }
    }
  }

  /** Of the pair's triples in `all`, those the topmost layer with any of them adds, `t` is the
      least. */
  ghost predicate TopmostLeast(stack: Stack, all: set<Triple>, i: nat, t: Triple) {
    && i < |stack| && t in stack[i].pos
    && (forall k, u :: 0 <= k < i && u in stack[k].pos && InPair(t.s, t.p, u) ==> u !in all)
    && (forall u :: u in stack[i].pos && InPair(t.s, t.p, u) && u in all ==> t.o <= u.o)
  }

  /** What the topmost layers add to the pair or remove from it is not there. */
  lemma GoneFromFold(stack: Stack, n: nat, s: nat, p: nat, u: Triple, k: nat)
    requires WellFormed(stack) && n <= |stack| && NoneUpto(stack, n, s, p) && InPair(s, p, u)
    requires k < n && (u in stack[k].pos || u in stack[k].neg)
    ensures u !in Fold(stack)
  {
    assert u == Triple(s, p, u.o);
    if u in Fold(stack) {
      var i := FoldIsAdded(stack, u);
    }
  }

  lemma FoundIsLeast(stack: Stack, n: nat, s: nat, p: nat, exclude: set<nat>, objects: set<nat>, o: nat)
    requires WellFormed(stack) && n < |stack| && NoneUpto(stack, n, s, p) && ExcludedBy(stack, n, s, p, exclude)
    requires forall o :: o in objects <==> Triple(s, p, o) in stack[n].pos
    requires o in objects && forall o' :: o' in objects - exclude ==> o <= o'
    ensures TopmostLeast(stack, Fold(stack), n, Triple(s, p, o))
  {
    hide NoneUpto, Fold, WellFormed;
    forall k, u | 0 <= k < n && u in stack[k].pos && InPair(s, p, u) ensures u !in Fold(stack) {
      GoneFromFold(stack, n, s, p, u, k);
    }
    forall u | u in stack[n].pos && InPair(s, p, u) && u in Fold(stack) ensures o <= u.o {
      assert u == Triple(s, p, u.o) && u.o in objects;
      if u.o in exclude {
        var k :| 0 <= k < n && Triple(s, p, u.o) in stack[k].neg;
        GoneFromFold(stack, n, s, p, u, k);
      } else {
        assert u.o in objects - exclude;
      }
    }
  }

  /** Finds a triple with the given subject and predicate if and only if the layer has one,
      scanning downward with the objects removed so far: of those added by the topmost layer, the
      least. */
  method SingleTripleSP(layer: InternalLayer, s: nat, p: nat) returns (r: Option<Triple>)
    requires layer.Valid()
    ensures r.Some? ==> r.value in layer.TripleSet() && InPair(s, p, r.value)
    ensures r.Some? ==> exists i :: TopmostLeast(layer.Deltas(), layer.TripleSet(), i, r.value)
    ensures r.None? ==> forall t :: t in layer.TripleSet() ==> !InPair(s, p, t)
  {
    hide ObjectIndex.Coherent, TripleIndex.Coherent, TripleIndex.Listing, WellFormed, Fold, ExcludedBy, NoneUpto,
      PairObjects, Rank, TopmostLeast;
    ghost var deltas := layer.Deltas();
    IndexAt(layer, 0, layer);
    ObjectsOf(LayerIndex(layer.Additions(), layer.Removals()), s, p);
    NothingExcluded(deltas, s, p);
    // is the pair among the topmost additions?
    var top := FirstObjectNotIn(layer.Additions().x, s, p, {});
    if top.Some? {
      FoundInFold(deltas, 0, s, p, {}, top.value);
      FoundIsLeast(deltas, 0, s, p, {}, PairObjects(layer.Additions().x, s, p), top.value);
      return Some(Triple(s, p, top.value));
    }
    NoneMore(deltas, 0, s, p, {}, PairObjects(layer.Additions().x, s, p));
    var exclude: set<nat> := {};
    var l := layer;
    ghost var i := 0;
    while true
      invariant i < |deltas| && layer.Indexes()[i..] == l.Indexes()
      invariant ExcludedBy(deltas, i, s, p, exclude) && NoneUpto(deltas, i + 1, s, p)
      decreases l.Size()
    {
      IndexAt(layer, i, l);
      var parent := l.ImmediateParent();
      if parent.None? {
        forall t | InPair(s, p, t) ensures t !in layer.TripleSet() {
          NoneInFold(deltas, s, p, t);
        }
        return None;
      }
      ObjectsOf(LayerIndex(l.Additions(), l.Removals()), s, p);
      var removals := l.Removals();
      if removals.Some? {
        ExcludeMore(deltas, i, s, p, exclude, PairObjects(removals.value.x, s, p));
        exclude := CollectObjects(removals.value.x, s, p, exclude);
      } else {
        ExcludeMore(deltas, i, s, p, exclude, {});
        assert exclude + {} == exclude;
      }
      l := parent.value;
      i := i + 1;
      IndexAt(layer, i, l);
      ObjectsOf(LayerIndex(l.Additions(), l.Removals()), s, p);
      var found := FirstObjectNotIn(l.Additions().x, s, p, exclude);
      if found.Some? {
        FoundInFold(deltas, i, s, p, exclude, found.value);
        FoundIsLeast(deltas, i, s, p, exclude, PairObjects(l.Additions().x, s, p), found.value);
        return Some(Triple(s, p, found.value));
      }
      NoneMore(deltas, i, s, p, exclude, PairObjects(l.Additions().x, s, p));
    }
  }

  lemma NothingExcluded(stack: Stack, s: nat, p: nat)
    ensures ExcludedBy(stack, 0, s, p, {}) && NoneUpto(stack, 0, s, p)
  {
  }

  /* ---- counts ---- */

  /** The number of zeros before position `k`. */
  function Zeros(nums: seq<nat>, k: nat): (n: nat)
    requires k <= |nums|
    ensures n <= k && n == |Positions(nums, 0, k)|
  {
    if k == 0 then 0 else Zeros(nums, k - 1) + (if nums[k - 1] == 0 then 1 else 0)
  }

  lemma StubEntry(x: TripleIndex, k: nat)
    requires x.Coherent() && k < |x.spo.nums|
    ensures var j := Rank(x.spo.bits, k);
      && j < |x.sp.nums| && (x.spo.nums[k] == 0 <==> x.sp.nums[j] == 0)
      && (x.sp.nums[j] == 0 ==> x.spo.bits[k])
      && Rank(x.spo.bits, k + 1) == (if x.spo.bits[k] then j + 1 else j)
  {
    hide GroupsAscend, TripleIndex.SubjectsAscend;
    EntryAt(x, k);
    RankNext(x.spo.bits, k);
  }

  /** Stubs of the object list match stubs of the predicate list one to one. */
  lemma {:induction false} StubsPairUp(x: TripleIndex, k: nat)
    requires x.Coherent() && k <= |x.spo.nums|
    ensures Rank(x.spo.bits, k) <= |x.sp.nums|
    ensures Zeros(x.spo.nums, k) == Zeros(x.sp.nums, Rank(x.spo.bits, k))
    ensures |x.Upto(k)| == k - Zeros(x.spo.nums, k)
  {
    hide TripleIndex.Coherent, Positions, TripleIndex.TripleAt, TripleIndex.SubjectAt;
    CoherentShape(x);
    if k > 0 {
      StubsPairUp(x, k - 1);
      StubEntry(x, k - 1);
    }
  }

  /** The size of the object list less its stubs, counted in the predicate list, is the number
      of triples stored. */
  method LayerCount(x: TripleIndex) returns (n: nat)
    requires x.Coherent()
    ensures n == |x.Listing()| == |Elements(x.Listing())|
  {
    hide TripleIndex.Coherent, Positions;
    CoherentShape(x);
    StubsPairUp(x, |x.spo.nums|);
    ListingSize(x);
    assert Rank(x.spo.bits, |x.spo.nums|) == |x.sp.nums|;
    n := x.spo.RightCount() - |Positions(x.sp.nums, 0, |x.sp.nums|)|;
  }

  lemma ListingSize(x: TripleIndex)
    requires x.Coherent()
    ensures |Elements(x.Listing())| == |x.Listing()|
  {
    ListingIncreases(x);
    IncreasingSize(BySubject, x.Listing());
  }

  lemma {:induction false} IncreasingSize(ord: Order, ts: seq<Triple>)
    requires Increasing(ord, ts)
    ensures |Elements(ts)| == |ts|
  {
    if ts == [] {
      EmptyHasNoElements(ts);
    } else {
      var rest := ts[1..];
      assert ts == [ts[0]] + rest;
      assert forall i :: 0 <= i < |rest| ==> rest[i] == ts[i + 1];
      IncreasingSize(ord, rest);
      assert ts[0] !in rest;
      assert Elements(ts) == {ts[0]} + Elements(rest);
    }
  }

  lemma {:induction false} CountsUpto(stack: Stack, i: nat)
    requires i < |stack|
    ensures Additions(stack[i..]) == |stack[i].pos| + Additions(stack[i + 1..])
    ensures Removals(stack[i..]) == |stack[i].neg| + Removals(stack[i + 1..])
  {
    assert stack[i..][1..] == stack[i + 1..];
  }

  /** Additions less removals over the whole stack: the number of triples, never underflowing. */
  method TripleCount(layer: InternalLayer) returns (n: nat)
    requires layer.Valid()
    ensures n == |layer.TripleSet()|
  {
    hide ObjectIndex.Coherent, TripleIndex.Coherent, TripleIndex.Listing, WellFormed, Fold;
    var additions, removals := 0, 0;
    var l := Some(layer);
    ghost var i := 0;
    ghost var deltas := layer.Deltas();
    assert deltas[0..] == deltas;
    while l.Some?
      invariant i <= |deltas| && (l.Some? ==> i < |deltas|)
      invariant layer.Indexes()[i..] == if l.Some? then l.value.Indexes() else []
      invariant additions + Additions(deltas[i..]) == Additions(deltas)
      invariant removals + Removals(deltas[i..]) == Removals(deltas)
      decreases if l.Some? then l.value.Size() + 1 else 0
    {
      IndexAt(layer, i, l.value);
      CountsUpto(deltas, i);
      var count := LayerCount(l.value.Additions().x);
      additions := additions + count;
      var neg := l.value.Removals();
      if neg.Some? {
        count := LayerCount(neg.value.x);
        removals := removals + count;
      }
      l := l.value.ImmediateParent();
      i := i + 1;
    }
    assert deltas[|deltas|..] == [];
    CountIsSize(deltas);
    n := additions - removals;
  }
}
