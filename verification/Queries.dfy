/** The triple queries of a layer stack: by subject, by subject and predicate, by predicate,
    by object, and all of them. Each is the merged iterator over seeking per-layer iterators. */
module Queries {
  import opened Sorting
  import opened Triples
  import opened StackSemantics
  import opened TripleIndexes
  import opened SubjectIterators
  import opened PredicateIterators
  import opened ObjectIndexes
  import opened ObjectIterators
  import opened LayerIterators
  import opened MergedIterators
  import opened InternalLayers

  /** How the per-layer iterators of a query are made and positioned. */
  datatype Kind = Subjects(from: nat) | Pair(s: nat, p: nat) | Predicate(p: nat) | Objects(from: nat)

  function OrderOf(kind: Kind): Order {
    if kind.Objects? then ByObject else BySubject
  }

  function ScopeOf(kind: Kind): Scope {
    if kind.Pair? then UpTo(kind.s, kind.p) else if kind == Predicate(0) then Nothing else Everything
  }

  /** The triples a query of this kind enumerates faithfully. */
  function Region(kind: Kind): Triple -> bool {
    match kind
    case Subjects(s) => SubjectFrom(s)
    case Pair(s, p) => PairIs(s, p)
    case Predicate(p) => PredicateIs(p)
    case Objects(o) => ObjectFrom(o)
  }

  /** What an iterator of one layer yields. */
  ghost predicate Yields(kind: Kind, index: Option<ObjectIndex>, rest: seq<Triple>)
    requires index.Some? ==> index.value.Coherent()
  {
    match index
    case None => rest == []
    case Some(oi) =>
      match kind
      case Subjects(s) => rest == Filter(SubjectFrom(s), oi.x.Listing())
      case Pair(s, p) =>
        && Increasing(BySubject, rest)
        && (forall t :: t in rest ==> t in oi.x.Listing() && PairAtMost(s, p, t))
        && (forall t :: t in oi.x.Listing() && InPair(s, p, t) ==> t in rest)
      case Predicate(p) => rest == Runs(oi.x, Positions(oi.x.sp.nums, p, |oi.x.sp.nums|))
      case Objects(o) => rest == Filter(ObjectFrom(o), oi.Listing())
  }

  method MakeIterator(kind: Kind, index: Option<ObjectIndex>) returns (it: LayerIterator)
    requires index.Some? ==> index.value.Coherent()
    ensures it.Valid() && fresh(it.Repr()) && Yields(kind, index, it.Rest())
  {
    hide SubjectIterator.Valid, SubjectIterator.Rest, PredicateIterator.Valid, PredicateIterator.Rest,
      ObjectIterator.Valid, ObjectIterator.Rest;
    if index.None? {
      return Absent;
    }
    var oi := index.value;
    match kind {
      case Subjects(s) =>
        var i := new SubjectIterator(oi.x);
        i.SeekSubject(s);
        it := OfSubject(i);
      case Pair(s, p) =>
        var i := new SubjectIterator(oi.x);
        i.SeekSubjectPredicate(s, p);
        it := OfSubject(i);
      case Predicate(p) =>
        if |Positions(oi.x.sp.nums, p, |oi.x.sp.nums|)| == 0 {
          // the wavelet tree does not know the predicate
          return Absent;
        }
        var i := new PredicateIterator(oi.x, p);
        it := OfPredicate(i);
      case Objects(o) =>
        var i := new ObjectIterator(oi);
        i.SeekObject(o);
        it := OfObject(i);
    }
  }

  /** Per stream: in order, and in scope exactly the layer's triples of the region. */
  lemma StreamRegion(kind: Kind, oi: ObjectIndex, rest: seq<Triple>)
    requires oi.Coherent() && Yields(kind, Some(oi), rest) && (kind.Predicate? ==> kind.p > 0)
    ensures Streams(OrderOf(kind), ScopeOf(kind), rest)
    ensures Scoped(ScopeOf(kind), rest) == Kept(Region(kind), Elements(oi.x.Listing()))
  {
    hide TripleIndex.Coherent, Ascending, ObjectIndex.ObjectsAscend, ObjectIndex.Listing, TripleIndex.Listing, Filter,
      Runs;
    ListingIncreases(oi.x);
    ListingAgrees(oi);
    match kind {
      case Subjects(s) =>
        FilterIncreases(BySubject, SubjectFrom(s), oi.x.Listing());
        RegionOfFilter(SubjectFrom(s), oi.x.Listing());
      case Pair(s, p) =>
        PairRegion(s, p, oi.x.Listing(), rest);
      case Predicate(p) =>
        RunsAreFilter(oi.x, p);
        FilterIncreases(BySubject, PredicateIs(p), oi.x.Listing());
        RegionOfFilter(PredicateIs(p), oi.x.Listing());
      case Objects(o) =>
        FilterIncreases(ByObject, ObjectFrom(o), oi.Listing());
        RegionOfFilter(ObjectFrom(o), oi.Listing());
    }
  }

  lemma RegionOfFilter(keep: Triple -> bool, ts: seq<Triple>)
    ensures Scoped(Everything, Filter(keep, ts)) == Kept(keep, Elements(ts))
  {
    forall t ensures t in Filter(keep, ts) <==> t in ts && keep(t) {
      FilterElement(keep, ts, t);
    }
  }

  lemma PairRegion(s: nat, p: nat, listing: seq<Triple>, rest: seq<Triple>)
    requires Increasing(BySubject, rest)
    requires forall t :: t in rest ==> t in listing && PairAtMost(s, p, t)
    requires forall t :: t in listing && InPair(s, p, t) ==> t in rest
    ensures Streams(BySubject, UpTo(s, p), rest)
    ensures Scoped(UpTo(s, p), rest) == Kept(PairIs(s, p), Elements(listing))
  {
    forall t ensures t in Scoped(UpTo(s, p), rest) <==> t in Kept(PairIs(s, p), Elements(listing)) {
      assert PairIs(s, p)(t) == InPair(s, p, t);
    }
  }

  /** What the iterators of both vectors yield, layer by layer. */
  ghost predicate AllYield(kind: Kind, indexes: seq<LayerIndex>, pos: seq<seq<Triple>>, neg: seq<seq<Triple>>)
    requires AllCoherent(indexes)
  {
    && |pos| == |neg| == |indexes|
    && (forall i :: 0 <= i < |indexes| ==> Yields(kind, Some(indexes[i].pos), pos[i]))
    && (forall i :: 0 <= i < |indexes| ==> Yields(kind, indexes[i].neg, neg[i]))
  }

  lemma LayerRegion(kind: Kind, index: LayerIndex, pos: seq<Triple>, neg: seq<Triple>)
    requires index.Coherent() && Yields(kind, Some(index.pos), pos) && Yields(kind, index.neg, neg)
    requires kind.Predicate? ==> kind.p > 0
    ensures Streams(OrderOf(kind), ScopeOf(kind), pos) && Streams(OrderOf(kind), ScopeOf(kind), neg)
    ensures Delta(Scoped(ScopeOf(kind), pos), Scoped(ScopeOf(kind), neg)) ==
      RestrictDelta(index.AsDelta(), Region(kind))
  {
    hide Streams, Yields, ObjectIndex.Coherent, TripleIndex.Listing;
    StreamRegion(kind, index.pos, pos);
    if index.neg.Some? {
      StreamRegion(kind, index.neg.value, neg);
    } else {
      AbsentYieldsNothing(kind, neg);
    }
  }

  lemma AbsentYieldsNothing(kind: Kind, rest: seq<Triple>)
    requires Yields(kind, None, rest)
    ensures rest == [] && Streams(OrderOf(kind), ScopeOf(kind), rest)
  {
  }

  /** Freshly made and positioned iterators are ready to be merged, and what is queued is the
      query's region of the stack. */
  lemma QueueIsRegion(kind: Kind, indexes: seq<LayerIndex>, pos: seq<seq<Triple>>, neg: seq<seq<Triple>>)
    requires AllCoherent(indexes) && WellFormed(DeltasOf(indexes)) && AllYield(kind, indexes, pos, neg)
    requires kind.Predicate? ==> kind.p > 0
    ensures Mergeable(OrderOf(kind), ScopeOf(kind), pos, neg)
    ensures Fold(Queued(ScopeOf(kind), pos, neg)) == Kept(Region(kind), Fold(DeltasOf(indexes)))
  {
    hide Yields, Streams, Scoped, LayerIndex.Coherent, LayerIndex.AsDelta, WellFormed, RestrictDelta;
    var stack, restricted := Queued(ScopeOf(kind), pos, neg), Restrict(DeltasOf(indexes), Region(kind));
    forall i | 0 <= i < |indexes|
      ensures Streams(OrderOf(kind), ScopeOf(kind), pos[i]) && Streams(OrderOf(kind), ScopeOf(kind), neg[i])
      ensures stack[i] == restricted[i]
    {
      LayerRegion(kind, indexes[i], pos[i], neg[i]);
    }
    assert stack == restricted;
    RestrictFold(DeltasOf(indexes), Region(kind));
  }

  /** Adding a fresh iterator keeps a vector's iterators apart. */
  method Extend(its: seq<LayerIterator>, others: seq<LayerIterator>, kind: Kind, index: Option<ObjectIndex>)
    returns (more: seq<LayerIterator>)
    requires Apart(its, others) && (index.Some? ==> index.value.Coherent())
    ensures Apart(more, others) && |more| == |its| + 1
    ensures forall o :: o in Footprint(more) ==> o in Footprint(its) || fresh(o)
    ensures Rests(others) == old(Rests(others))
    ensures exists rest :: Yields(kind, index, rest) && Rests(more) == old(Rests(its)) + [rest]
  {
    hide LayerIterator.Valid, LayerIterator.Rest, Yields, ObjectIndex.Coherent, Rests, AllValid;
    var it := MakeIterator(kind, index);
    UnmovedAll(its);
    UnmovedAll(others);
    more := its + [it];
    FootprintAppend(its, it);
    AllValidAppend(its, it);
  }

  lemma YieldMore(kind: Kind, indexes: seq<LayerIndex>, pos: seq<seq<Triple>>, neg: seq<seq<Triple>>,
      index: LayerIndex, p: seq<Triple>, n: seq<Triple>)
    requires AllCoherent(indexes) && AllYield(kind, indexes, pos, neg) && index.Coherent()
    requires Yields(kind, Some(index.pos), p) && Yields(kind, index.neg, n)
    ensures AllCoherent(indexes + [index]) && AllYield(kind, indexes + [index], pos + [p], neg + [n])
  {
    hide Yields, LayerIndex.Coherent;
  }

  lemma TakeCoherent(a: seq<LayerIndex>, index: LayerIndex, b: seq<LayerIndex>)
    requires AllCoherent(a + [index] + b)
    ensures AllCoherent(a) && index.Coherent()
  {
    hide LayerIndex.Coherent;
    var all := a + [index] + b;
    assert all[|a|] == index;
    assert forall i :: 0 <= i < |a| ==> all[i] == a[i];
  }

  /** Predicate 0 stands for no predicate: its queries look at nothing. */
  lemma NoPredicate(pos: seq<seq<Triple>>, neg: seq<seq<Triple>>)
    requires |pos| == |neg|
    ensures Mergeable(BySubject, Nothing, pos, neg)
  {
    EmptyStack(Queued(Nothing, pos, neg));
  }

  lemma {:induction false} EmptyStack(stack: Stack)
    requires forall i :: 0 <= i < |stack| ==> stack[i].pos == {} && stack[i].neg == {}
    ensures WellFormed(stack)
  {
    if stack != [] {
      EmptyStack(stack[1..]);
    }
  }

  /** Walks the stack, making an iterator for the additions and the removals of every layer. */
  method FromLayer(layer: InternalLayer, kind: Kind) returns (m: MergedIterator)
    requires layer.Valid()
    ensures m.Valid() && m.ord == OrderOf(kind) && m.scope == ScopeOf(kind)
    ensures fresh(Footprint(m.positives)) && fresh(Footprint(m.negatives))
    ensures kind != Predicate(0) ==> m.Outstanding() == Kept(Region(kind), layer.TripleSet())
    ensures AllYield(kind, layer.Indexes(), Rests(m.positives), Rests(m.negatives))
  {
    hide Yields, AllYield, AllCoherent, LayerIndex.Coherent, WellFormed, Mergeable, AllValid, Rests,
      LayerIterator.Repr, Footprint, Queued, Fold, Kept;
    var positives: seq<LayerIterator>, negatives: seq<LayerIterator> := [], [];
    ghost var done: seq<LayerIndex> := [];
    NothingYet(kind);
    var l := Some(layer);
    while l.Some?
      invariant Apart(positives, negatives) && fresh(Footprint(positives)) && fresh(Footprint(negatives))
      invariant layer.Indexes() == done + (if l.Some? then l.value.Indexes() else [])
      invariant AllCoherent(done) && AllYield(kind, done, Rests(positives), Rests(negatives))
      decreases if l.Some? then 1 + l.value.Size() else 0
    {
      ghost var index := LayerIndex(l.value.Additions(), l.value.Removals());
      ghost var pos, neg := Rests(positives), Rests(negatives);
      IndexesSplit(layer, done, l.value);
      positives := Extend(positives, negatives, kind, Some(l.value.Additions()));
      ApartSymmetric(positives, negatives);
      negatives := Extend(negatives, positives, kind, l.value.Removals());
      ApartSymmetric(negatives, positives);
      ghost var p :| Yields(kind, Some(index.pos), p) && Rests(positives) == pos + [p];
      ghost var n :| Yields(kind, index.neg, n) && Rests(negatives) == neg + [n];
      YieldMore(kind, done, pos, neg, index, p, n);
      done := done + [index];
      l := l.value.ImmediateParent();
    }
    assert layer.Indexes() == done;
    if kind == Predicate(0) {
      SameSize(kind, done, Rests(positives), Rests(negatives));
      NoPredicate(Rests(positives), Rests(negatives));
    } else {
      QueueIsRegion(kind, done, Rests(positives), Rests(negatives));
    }
    m := Assemble(OrderOf(kind), positives, negatives, ScopeOf(kind));
  }

  method Assemble(ord: Order, positives: seq<LayerIterator>, negatives: seq<LayerIterator>, ghost scope: Scope)
    returns (m: MergedIterator)
    requires Apart(positives, negatives) && Mergeable(ord, scope, Rests(positives), Rests(negatives))
    ensures m.Valid() && m.ord == ord && m.scope == scope && m.positives == positives && m.negatives == negatives
    ensures Rests(positives) == old(Rests(positives)) && Rests(negatives) == old(Rests(negatives))
    ensures m.Outstanding() == Fold(Queued(scope, old(Rests(positives)), old(Rests(negatives))))
  {
    hide Mergeable, AllValid, Rests, Queued, Fold, LayerIterator.Valid, LayerIterator.Rest;
    m := new MergedIterator(ord, positives, negatives, scope);
    UnmovedAll(positives);
    UnmovedAll(negatives);
  }

  lemma SameSize(kind: Kind, indexes: seq<LayerIndex>, pos: seq<seq<Triple>>, neg: seq<seq<Triple>>)
    requires AllCoherent(indexes) && AllYield(kind, indexes, pos, neg)
    ensures |pos| == |neg| == |indexes|
  {
  }

  lemma NothingYet(kind: Kind)
    ensures AllCoherent([]) && AllYield(kind, [], [], []) && Apart([], []) && Rests([]) == [] && Footprint([]) == {}
  {
  }

  lemma IndexesSplit(layer: InternalLayer, done: seq<LayerIndex>, l: InternalLayer)
    requires layer.Coherent() && layer.Indexes() == done + l.Indexes()
    ensures var index := LayerIndex(l.Additions(), l.Removals());
      && index.Coherent()
      && layer.Indexes() == done + [index] + (match l.ImmediateParent() case None => [] case Some(p) => p.Indexes())
  {
    var index := LayerIndex(l.Additions(), l.Removals());
    var rest := match l.ImmediateParent() case None => [] case Some(p) => p.Indexes();
    assert done + l.Indexes() == done + [index] + rest;
    TakeCoherent(done, index, rest);
  }
}
