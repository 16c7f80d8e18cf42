/** The merged iterator over a stack of layers. The subject, predicate and object iterators
    of the source share this one algorithm; they differ in the per-layer iterators and in the
    order they compare by. */
module MergedIterators {
  import opened Sorting
  import opened Triples
  import opened StackSemantics
  import opened LayerIterators

  /** The part of the triple space a query looks at. After a subject-predicate seek only the
      triples up to the sought pair are enumerated faithfully; the seek skips some later ones. */
  datatype Scope = Nothing | UpTo(s: nat, p: nat) | Everything

  predicate InScope(scope: Scope, t: Triple) {
    match scope
    case Nothing => false
    case UpTo(s, p) => t.s < s || (t.s == s && t.p <= p)
    case Everything => true
  }

  predicate ScopeFits(ord: Order, scope: Scope) {
    scope.UpTo? ==> ord == BySubject
  }

  /** Triples in scope come first and in order. */
  ghost predicate Streams(ord: Order, scope: Scope, ts: seq<Triple>) {
    forall i, j :: 0 <= i < j < |ts| && InScope(scope, ts[j]) ==> InScope(scope, ts[i]) && Before(ord, ts[i], ts[j])
  }

  function Scoped(scope: Scope, ts: seq<Triple>): set<Triple> {
    set t | t in ts && InScope(scope, t)
  }

  /** The still queued part of the stack, layer by layer. */
  function Queued(scope: Scope, pos: seq<seq<Triple>>, neg: seq<seq<Triple>>): (stack: Stack)
    requires |pos| == |neg|
    ensures |stack| == |pos|
    ensures forall i :: 0 <= i < |stack| ==> stack[i] == Delta(Scoped(scope, pos[i]), Scoped(scope, neg[i]))
  {
    seq(|pos|, i requires 0 <= i < |pos| => Delta(Scoped(scope, pos[i]), Scoped(scope, neg[i])))
  }

  ghost predicate AllStream(ord: Order, scope: Scope, rests: seq<seq<Triple>>) {
    forall i :: 0 <= i < |rests| ==> Streams(ord, scope, rests[i])
  }

  /** The state of a merge: ordered streams whose queued part is a well-formed stack. In
      particular every queued removal has its addition still queued below it. */
  ghost predicate Mergeable(ord: Order, scope: Scope, pos: seq<seq<Triple>>, neg: seq<seq<Triple>>) {
    && |pos| == |neg| && ScopeFits(ord, scope) && AllStream(ord, scope, pos) && AllStream(ord, scope, neg)
    && WellFormed(Queued(scope, pos, neg))
  }

  /* ---- one step of the merge ---- */

  lemma HeadFirst(ord: Order, scope: Scope, ts: seq<Triple>, t: Triple)
    requires Streams(ord, scope, ts) && t in Scoped(scope, ts)
    ensures ts != [] && InScope(scope, ts[0]) && (ts[0] == t || Before(ord, ts[0], t))
  {
    var i :| 0 <= i < |ts| && ts[i] == t;
  }

  lemma TailStreams(ord: Order, scope: Scope, ts: seq<Triple>)
    requires Streams(ord, scope, ts) && ts != []
    ensures Streams(ord, scope, ts[1..])
    ensures Scoped(scope, ts[1..]) == Scoped(scope, ts) - {ts[0]}
  {
    var rest := ts[1..];
    assert ts == [ts[0]] + rest;
    forall i | 0 <= i < |rest| && InScope(scope, rest[i]) ensures rest[i] != ts[0] {
      assert rest[i] == ts[i + 1] && Before(ord, ts[0], ts[i + 1]);
    }
  }

  /** No queued removal blocks: nothing in the queue precedes the lowest addition. */
  lemma LowestPrecedes(ord: Order, scope: Scope, pos: seq<seq<Triple>>, neg: seq<seq<Triple>>, k: nat, u: Triple)
    requires Mergeable(ord, scope, pos, neg) && LowestUpto(ord, pos, |pos|, Some(k))
    requires exists i :: 0 <= i < |pos| && (u in Scoped(scope, pos[i]) || u in Scoped(scope, neg[i]))
    ensures InScope(scope, pos[k][0]) && (pos[k][0] == u || Before(ord, pos[k][0], u))
  {
    hide WellFormed, Streams, AllStream;
    var i :| 0 <= i < |pos| && (u in Scoped(scope, pos[i]) || u in Scoped(scope, neg[i]));
    var m := i;
    if u !in Scoped(scope, pos[i]) {
      m := RemovalHasAddition(Queued(scope, pos, neg), i, u);
    }
    assert Streams(ord, scope, pos[m]) by { StreamAt(ord, scope, pos, m); }
    HeadFirst(ord, scope, pos[m], u);
    assert !Before(ord, pos[m][0], pos[k][0]);
  }

  lemma StreamAt(ord: Order, scope: Scope, rests: seq<seq<Triple>>, i: nat)
    requires AllStream(ord, scope, rests) && i < |rests|
    ensures Streams(ord, scope, rests[i])
  {
  }

  lemma StreamsAfter(ord: Order, scope: Scope, rests: seq<seq<Triple>>, k: nat)
    requires AllStream(ord, scope, rests) && k < |rests| && rests[k] != []
    ensures AllStream(ord, scope, rests[k := rests[k][1..]])
  {
    hide Streams;
    StreamAt(ord, scope, rests, k);
    TailStreams(ord, scope, rests[k]);
  }

  /** The lowest addition belongs to the topmost layer that still queues it. */
  lemma LowestIsTopmost(ord: Order, scope: Scope, pos: seq<seq<Triple>>, neg: seq<seq<Triple>>, k: nat)
    requires Mergeable(ord, scope, pos, neg) && LowestUpto(ord, pos, |pos|, Some(k)) && InScope(scope, pos[k][0])
    ensures TopmostAddition(Queued(scope, pos, neg), k, pos[k][0])
  {
    hide WellFormed;
    var t := pos[k][0];
    forall i | 0 <= i < k ensures t !in Scoped(scope, pos[i]) {
      if t in Scoped(scope, pos[i]) {
        HeadFirst(ord, scope, pos[i], t);
      }
    }
  }

  /** A queued removal of the lowest addition is at the head of its stream. */
  lemma RemovalAtHead(ord: Order, scope: Scope, pos: seq<seq<Triple>>, neg: seq<seq<Triple>>, k: nat, j: nat)
    requires Mergeable(ord, scope, pos, neg) && LowestUpto(ord, pos, |pos|, Some(k)) && j < |neg| &&
      InScope(scope, pos[k][0])
    ensures pos[k][0] in Scoped(scope, neg[j]) <==> neg[j] != [] && neg[j][0] == pos[k][0]
  {
    hide WellFormed, LowestUpto;
    LowestExists(ord, pos, k);
    var t := pos[k][0];
    if t in Scoped(scope, neg[j]) {
      HeadFirst(ord, scope, neg[j], t);
      LowestPrecedes(ord, scope, pos, neg, k, neg[j][0]);
    }
  }

  /** The lowest addition is yielded when no layer above removes it. */
  lemma Yield(ord: Order, scope: Scope, pos: seq<seq<Triple>>, neg: seq<seq<Triple>>, k: nat)
    requires Mergeable(ord, scope, pos, neg) && LowestUpto(ord, pos, |pos|, Some(k))
    requires forall j :: 0 <= j < k ==> neg[j] == [] || neg[j][0] != pos[k][0]
    ensures var t, pos' := pos[k][0], pos[k := pos[k][1..]];
      && Mergeable(ord, scope, pos', neg)
      && Fold(Queued(scope, pos', neg)) == Fold(Queued(scope, pos, neg)) - {t}
      && (InScope(scope, t) <==> t in Fold(Queued(scope, pos, neg)))
  {
    hide WellFormed, Streams, AllStream, LowestUpto, Before;
    LowestExists(ord, pos, k);
    var t, pos' := pos[k][0], pos[k := pos[k][1..]];
    StreamsAfter(ord, scope, pos, k);
    StreamAt(ord, scope, pos, k);
    TailStreams(ord, scope, pos[k]);
    var stack, stack' := Queued(scope, pos, neg), Queued(scope, pos', neg);
    assert stack' == DropAddition(stack, k, t);
    if InScope(scope, t) {
      LowestIsTopmost(ord, scope, pos, neg, k);
      forall j | 0 <= j < k ensures t !in stack[j].neg {
        RemovalAtHead(ord, scope, pos, neg, k, j);
      }
      YieldStep(stack, k, t);
    } else {
      assert stack[k].pos - {t} == stack[k].pos;
      assert stack' == stack;
      if t in Fold(stack) {
        var i := FoldIsAdded(stack, t);
      }
    }
  }

  lemma LowestExists(ord: Order, rests: seq<seq<Triple>>, k: nat)
    requires LowestUpto(ord, rests, |rests|, Some(k))
    ensures k < |rests| && rests[k] != []
  {
  }

  /** The lowest addition cancels against the first removal of it above. */
  lemma Cancel(ord: Order, scope: Scope, pos: seq<seq<Triple>>, neg: seq<seq<Triple>>, k: nat, j: nat)
    requires Mergeable(ord, scope, pos, neg) && LowestUpto(ord, pos, |pos|, Some(k))
    requires j < k && neg[j] != [] && neg[j][0] == pos[k][0]
    requires forall i :: 0 <= i < j ==> neg[i] == [] || neg[i][0] != pos[k][0]
    ensures var pos', neg' := pos[k := pos[k][1..]], neg[j := neg[j][1..]];
      && Mergeable(ord, scope, pos', neg')
      && Fold(Queued(scope, pos', neg')) == Fold(Queued(scope, pos, neg))
  {
    hide WellFormed, Streams, AllStream, LowestUpto, Before;
    LowestExists(ord, pos, k);
    var t, pos', neg' := pos[k][0], pos[k := pos[k][1..]], neg[j := neg[j][1..]];
    StreamsAfter(ord, scope, pos, k);
    StreamsAfter(ord, scope, neg, j);
    StreamAt(ord, scope, pos, k);
    StreamAt(ord, scope, neg, j);
    TailStreams(ord, scope, pos[k]);
    TailStreams(ord, scope, neg[j]);
    var stack, stack' := Queued(scope, pos, neg), Queued(scope, pos', neg');
    assert stack' == DropAddition(DropRemoval(stack, j, t), k, t);
    if InScope(scope, t) {
      LowestIsTopmost(ord, scope, pos, neg, k);
      forall i | 0 <= i < j ensures t !in stack[i].neg {
        RemovalAtHead(ord, scope, pos, neg, k, i);
      }
      RemovalAtHead(ord, scope, pos, neg, k, j);
      CancelStep(stack, k, j, t);
    } else {
      assert stack[k].pos - {t} == stack[k].pos && stack[j].neg - {t} == stack[j].neg;
      assert stack' == stack;
    }
  }

  lemma NothingQueued(ord: Order, scope: Scope, pos: seq<seq<Triple>>, neg: seq<seq<Triple>>)
    requires |pos| == |neg| && LowestUpto(ord, pos, |pos|, None)
    ensures Fold(Queued(scope, pos, neg)) == {}
  {
    var stack := Queued(scope, pos, neg);
    forall t ensures t !in Fold(stack) {
      if t in Fold(stack) {
        var i := FoldIsAdded(stack, t);
      }
    }
  }

  /** Everything still to be yielded follows the lowest addition. */
  lemma LowestIsLeast(ord: Order, scope: Scope, pos: seq<seq<Triple>>, neg: seq<seq<Triple>>, k: nat, u: Triple)
    requires Mergeable(ord, scope, pos, neg) && LowestUpto(ord, pos, |pos|, Some(k)) &&
      u in Fold(Queued(scope, pos, neg))
    ensures k < |pos| && pos[k] != [] && InScope(scope, pos[k][0]) && (pos[k][0] == u || Before(ord, pos[k][0], u))
  {
    hide WellFormed, LowestUpto;
    LowestExists(ord, pos, k);
    var i := FoldIsAdded(Queued(scope, pos, neg), u);
    LowestPrecedes(ord, scope, pos, neg, k, u);
  }

  /** Two vectors of iterators that share nothing. */
  ghost predicate Apart(a: seq<LayerIterator>, b: seq<LayerIterator>)
    reads Footprint(a), Footprint(b)
  {
    AllValid(a) && AllValid(b) && Footprint(a) !! Footprint(b)
  }

  /** `LowestIndex` of one vector leaves a vector apart from it alone. */
  method LowestOf(ord: Order, its: seq<LayerIterator>, others: seq<LayerIterator>) returns (r: Option<nat>)
    requires Apart(its, others)
    modifies Footprint(its)
    ensures Apart(its, others) && Rests(its) == old(Rests(its)) && Rests(others) == old(Rests(others))
    ensures LowestUpto(ord, Rests(its), |its|, r)
  {
    hide LayerIterator.Valid, LayerIterator.Rest, AllValid, LowestUpto, Rests;
    r := LowestIndex(ord, its);
    UnmovedAll(others);
  }

  method TakeAt(its: seq<LayerIterator>, others: seq<LayerIterator>, k: nat) returns (t: Triple)
    requires Apart(its, others) && k < |its| && Rests(its)[k] != []
    modifies Footprint(its)
    ensures Apart(its, others) && t == old(Rests(its))[k][0]
    ensures Rests(its) == old(Rests(its))[k := old(Rests(its))[k][1..]] && Rests(others) == old(Rests(others))
  {
    hide LayerIterator.Valid, LayerIterator.Rest, AllValid;
    PartOfFootprint(its, k);
    var r := NextAt(its, k);
    UnmovedAll(others);
    t := r.value;
  }

  method TakeRemoval(its: seq<LayerIterator>, others: seq<LayerIterator>, k: nat, t: Triple) returns (r: Option<nat>)
    requires Apart(its, others) && k <= |its|
    modifies Footprint(its)
    ensures Apart(its, others) && Rests(others) == old(Rests(others))
    ensures FirstWithHead(old(Rests(its)), k, t, r)
    ensures r.None? ==> Rests(its) == old(Rests(its))
    ensures r.Some? ==> r.value < |its| && old(Rests(its))[r.value] != []
    ensures r.Some? ==> Rests(its) == old(Rests(its))[r.value := old(Rests(its))[r.value][1..]]
  {
    hide LayerIterator.Valid, LayerIterator.Rest, AllValid, FirstWithHead, Rests;
    r := TakeHead(its, k, t);
    UnmovedAll(others);
  }

  class MergedIterator {
    const ord: Order
    const positives: seq<LayerIterator>
    const negatives: seq<LayerIterator>
    ghost const scope: Scope

    ghost predicate Valid()
      reads Footprint(positives), Footprint(negatives)
    {
      && Apart(positives, negatives) && Apart(negatives, positives)
      && Mergeable(ord, scope, Rests(positives), Rests(negatives))
    }

    /** The triples in scope that are still to be yielded. */
    ghost function Outstanding(): set<Triple>
      requires Valid()
      reads Footprint(positives), Footprint(negatives)
    {
      Fold(Queued(scope, Rests(positives), Rests(negatives)))
    }

    /** The number of additions still queued. */
    ghost function Left(): nat
      requires Valid()
      reads Footprint(positives), Footprint(negatives)
    {
      TotalLength(Rests(positives))
    }

    constructor (ord: Order, positives: seq<LayerIterator>, negatives: seq<LayerIterator>, ghost scope: Scope)
      ensures this.ord == ord && this.positives == positives && this.negatives == negatives && this.scope == scope
    {
      this.ord, this.positives, this.negatives, this.scope := ord, positives, negatives, scope;
    }

    /** Yields the lowest triple that is not removed above its addition. */
    method Next() returns (r: Option<Triple>)
      requires Valid()
      modifies Footprint(positives), Footprint(negatives)
      ensures Valid()
      ensures r.None? ==> old(Outstanding()) == {} && Outstanding() == {}
      ensures r.Some? ==> Outstanding() == old(Outstanding()) - {r.value}
      ensures r.Some? ==> (InScope(scope, r.value) <==> r.value in old(Outstanding()))
      ensures r.Some? ==> forall u :: u in old(Outstanding()) ==>
        InScope(scope, r.value) && (r.value == u || Before(ord, r.value, u))
      ensures r.Some? ==> Left() < old(Left())
      ensures r.None? && NothingLeft(old(Rests(negatives))) ==> NothingLeft(old(Rests(positives)))
    {
      hide LayerIterator.Repr, AllValid, Rests, Footprint, Mergeable, LowestUpto, Before, Fold, Queued, FirstWithHead,
        NothingLeft, Bag;
      ghost var all := Outstanding();
      while true
        invariant Valid() && Outstanding() == all
        invariant Left() <= old(Left())
        invariant NothingLeft(old(Rests(negatives))) ==>
          Rests(positives) == old(Rests(positives)) && Rests(negatives) == old(Rests(negatives))
        decreases Left()
      {
        ghost var pos, neg := Rests(positives), Rests(negatives);
        MergeSizes(ord, scope, pos, neg);
        var lowest := LowestOf(ord, positives, negatives);
        if lowest.None? {
          NothingQueued(ord, scope, pos, neg);
          AllEmpty(ord, pos);
          return None;
        }
        var k := lowest.value;
        LowestExists(ord, pos, k);
        var t := TakeAt(positives, negatives, k);
        BagHead(pos, k);
        ApartSymmetric(positives, negatives);
        var removal := TakeRemoval(negatives, positives, k, t);
        ApartSymmetric(negatives, positives);
        FirstHead(neg, k, t, removal);
        if removal.Some? {
          Cancel(ord, scope, pos, neg, k, removal.value);
          continue;
        }
        Yield(ord, scope, pos, neg, k);
        forall u | u in all ensures InScope(scope, t) && (t == u || Before(ord, t, u)) {
          LowestIsLeast(ord, scope, pos, neg, k, u);
        }
        return Some(t);
      }
    }
  }

  lemma ApartSymmetric(a: seq<LayerIterator>, b: seq<LayerIterator>)
    requires Apart(a, b)
    ensures Apart(b, a)
  {
  }

  predicate NothingLeft(rests: seq<seq<Triple>>) {
    forall i :: 0 <= i < |rests| ==> rests[i] == []
  }

  lemma AllEmpty(ord: Order, rests: seq<seq<Triple>>)
    requires LowestUpto(ord, rests, |rests|, None)
    ensures NothingLeft(rests)
  {
  }

  lemma PartOfFootprint(its: seq<LayerIterator>, k: nat)
    requires k < |its|
    ensures its[k].Repr() <= Footprint(its)
  {
  }

  lemma FirstHead(rests: seq<seq<Triple>>, n: nat, t: Triple, r: Option<nat>)
    requires n <= |rests| && FirstWithHead(rests, n, t, r)
    ensures r.None? ==> forall i :: 0 <= i < n ==> rests[i] == [] || rests[i][0] != t
    ensures r.Some? ==> r.value < n && rests[r.value] != [] && rests[r.value][0] == t && !NothingLeft(rests)
    ensures r.Some? ==> forall i :: 0 <= i < r.value ==> rests[i] == [] || rests[i][0] != t
  {
  }

  lemma MergeSizes(ord: Order, scope: Scope, pos: seq<seq<Triple>>, neg: seq<seq<Triple>>)
    requires Mergeable(ord, scope, pos, neg)
    ensures |pos| == |neg|
  {
  }

  /** Triples satisfying `keep` form the first part of what is yielded. */
  ghost predicate ComesFirst(ord: Order, scope: Scope, keep: Triple -> bool, ts: set<Triple>) {
    && (forall t, u :: t in ts && u in ts && keep(u) && Before(ord, t, u) ==> keep(t))
    && (forall t {:trigger keep(t)} :: keep(t) ==> InScope(scope, t))
  }

  function Kept(keep: Triple -> bool, ts: set<Triple>): set<Triple> {
    set t | t in ts && keep(t)
  }

  /** `out` lists, in order, the kept triples of `all` that are no longer outstanding. */
  ghost predicate Collected(ord: Order, keep: Triple -> bool, out: seq<Triple>, all: set<Triple>, left: set<Triple>) {
    && left <= all && Increasing(ord, out) && Elements(out) == Kept(keep, all - left)
    && (forall t :: t in all - left ==> keep(t))
    && (forall t, u :: t in all - left && u in left ==> Before(ord, t, u))
  }

  lemma CollectStep(ord: Order, keep: Triple -> bool, out: seq<Triple>, all: set<Triple>, left: set<Triple>, t: Triple)
    requires Collected(ord, keep, out, all, left) && t in left && keep(t)
    requires forall u :: u in left ==> t == u || Before(ord, t, u)
    ensures Collected(ord, keep, out + [t], all, left - {t})
  {
    var out', left' := out + [t], left - {t};
    forall i | 0 <= i < |out| ensures Before(ord, out[i], t) {
      assert out[i] in Elements(out);
    }
    IncreasingAppend(ord, out, t);
    assert Elements(out') == Elements(out) + {t};
    assert all - left' == (all - left) + {t};
  }

  lemma CollectDone(ord: Order, scope: Scope, keep: Triple -> bool, out: seq<Triple>, all: set<Triple>,
      left: set<Triple>)
    requires Collected(ord, keep, out, all, left) && ComesFirst(ord, scope, keep, all)
    requires left == {} || exists t :: t in left && !keep(t) && forall u :: u in left ==> t == u || Before(ord, t, u)
    ensures Elements(out) == Kept(keep, all) && Increasing(ord, out)
  {
    forall u | u in left ensures !keep(u) {
      var t :| t in left && !keep(t) && forall v :: v in left ==> t == v || Before(ord, t, v);
    }
    assert Kept(keep, all - left) == Kept(keep, all);
  }

  /** Yields until the first triple that is not to be kept: exactly the kept triples, in order,
      when those come first. Without any queued removal, nothing is yielded only if nothing
      is queued. */
  method CollectWhile(m: MergedIterator, keep: Triple -> bool) returns (out: seq<Triple>)
    requires m.Valid()
    modifies Footprint(m.positives), Footprint(m.negatives)
    ensures ComesFirst(m.ord, m.scope, keep, old(m.Outstanding())) ==>
      Increasing(m.ord, out) && Elements(out) == Kept(keep, old(m.Outstanding()))
    ensures NothingLeft(old(Rests(m.positives))) ==> out == []
    ensures out == [] && (forall t {:trigger keep(t)} :: keep(t)) && NothingLeft(old(Rests(m.negatives))) ==>
      NothingLeft(old(Rests(m.positives)))
  {
    hide Mergeable, MergedIterator.Outstanding, MergedIterator.Left, Collected, ComesFirst, Kept, Increasing,
      Elements, Rests, AllValid, Footprint, LayerIterator.Repr, NothingLeft;
    out := [];
    ghost var all, size := m.Outstanding(), m.Left();
    ghost var good := ComesFirst(m.ord, m.scope, keep, all);
    SizeOfNothing(m);
    NothingCollected(m.ord, keep, all);
    while true
      invariant m.Valid() && m.Left() <= size
      invariant good ==> Collected(m.ord, keep, out, all, m.Outstanding())
      invariant out == [] ==>
        Rests(m.positives) == old(Rests(m.positives)) && Rests(m.negatives) == old(Rests(m.negatives))
      invariant out != [] ==> size > 0
      decreases m.Left()
    {
      ghost var left := m.Outstanding();
      var next := m.Next();
      if next.None? || !keep(next.value) {
        if good {
          KeptInScope(m.ord, m.scope, keep, all);
          CollectDone(m.ord, m.scope, keep, out, all, left);
        }
        return;
      }
      var t := next.value;
      if good {
        KeptInScope(m.ord, m.scope, keep, all);
        CollectStep(m.ord, keep, out, all, left, t);
      }
      out := out + [t];
    }
  }

  lemma SizeOfNothing(m: MergedIterator)
    requires m.Valid()
    ensures NothingLeft(Rests(m.positives)) ==> m.Left() == 0
  {
    if NothingLeft(Rests(m.positives)) {
      NoLength(Rests(m.positives));
    }
  }

  lemma {:induction false} NoLength(rests: seq<seq<Triple>>)
    requires NothingLeft(rests)
    ensures TotalLength(rests) == 0
  {
    if rests != [] {
      NoLength(rests[1..]);
    }
  }

  lemma NothingCollected(ord: Order, keep: Triple -> bool, all: set<Triple>)
    ensures Collected(ord, keep, [], all, all)
  {
    assert all - all == {};
  }

  lemma KeptInScope(ord: Order, scope: Scope, keep: Triple -> bool, ts: set<Triple>)
    requires ComesFirst(ord, scope, keep, ts)
    ensures forall t {:trigger keep(t)} :: keep(t) ==> InScope(scope, t)
  {
  }
}
