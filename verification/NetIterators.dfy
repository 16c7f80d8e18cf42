/** The stack iterator: the net change between a layer and one of its ancestors, as additions
    and removals in triple order. */
module NetIterators {
  import opened Sorting
  import opened Triples
  import opened StackSemantics
  import opened TripleIndexes
  import opened SubjectIterators
  import opened ObjectIndexes
  import opened LayerIterators
  import opened MergedIterators
  import opened InternalLayers
  import opened Queries

  datatype TripleChange = Addition | Removal

  type Change = (TripleChange, Triple)

  /** How often `t` is still to be added, less how often it is still to be removed. */
  ghost function Net(pos: seq<seq<Triple>>, neg: seq<seq<Triple>>, t: Triple): int {
    var added: int, removed: int := Bag(pos)[t], Bag(neg)[t];
    added - removed
  }

  /** Every stream is in order, and no triple is off balance by more than one. */
  ghost predicate Balanced(pos: seq<seq<Triple>>, neg: seq<seq<Triple>>) {
    && AllStream(BySubject, Everything, pos) && AllStream(BySubject, Everything, neg)
    && forall t :: -1 <= Net(pos, neg, t) <= 1
  }

  lemma LowestOfBag(rests: seq<seq<Triple>>, k: nat, u: Triple)
    requires AllStream(BySubject, Everything, rests) && LowestUpto(BySubject, rests, |rests|, Some(k)) &&
      u in Bag(rests)
    ensures k < |rests| && rests[k] != [] && (rests[k][0] == u || Before(BySubject, rests[k][0], u))
  {
    var i := BagElement(rests, u);
    StreamAt(BySubject, Everything, rests, i);
    HeadFirst(BySubject, Everything, rests[i], u);
  }

  lemma NothingInBag(rests: seq<seq<Triple>>)
    requires LowestUpto(BySubject, rests, |rests|, None)
    ensures Bag(rests) == multiset{}
  {
    EmptyBag(rests);
  }

  /** Every entry of `rests` comes after `t`. */
  ghost predicate AllAfter(rests: seq<seq<Triple>>, t: Triple) {
    forall u :: u in Bag(rests) ==> Before(BySubject, t, u)
  }

  /** The lowest entry of one side, when the other side has nothing as low, is off balance by
      exactly one and occurs once. */
  lemma Unmatched(a: seq<seq<Triple>>, b: seq<seq<Triple>>, k: nat)
    requires AllStream(BySubject, Everything, a) && LowestUpto(BySubject, a, |a|, Some(k))
    requires k < |a| && a[k] != [] && AllAfter(b, a[k][0])
    requires Bag(a)[a[k][0]] <= Bag(b)[a[k][0]] + 1
    ensures var t, a' := a[k][0], a[k := a[k][1..]];
      && Bag(a)[t] == 1 && Bag(b)[t] == 0 && Bag(a) == Bag(a') + multiset{t}
      && AllStream(BySubject, Everything, a') && AllAfter(a', t)
  {
    hide Streams, LowestUpto, Before;
    var t, a' := a[k][0], a[k := a[k][1..]];
    BagHead(a, k);
    StreamsAfter(BySubject, Everything, a, k);
    assert Bag(b)[t] == 0 by {
      if t in Bag(b) {
        assert Before(BySubject, t, t);
        NotBeforeItself(t);
      }
    }
    forall u | u in Bag(a') ensures Before(BySubject, t, u) {
      LowestOfBag(a, k, u);
    }
  }

  lemma NotBeforeItself(t: Triple)
    ensures !Before(BySubject, t, t)
  {
  }

  lemma NothingBelow(b: seq<seq<Triple>>, m: Option<nat>, t: Triple)
    requires AllStream(BySubject, Everything, b) && LowestUpto(BySubject, b, |b|, m)
    requires m.Some? ==> m.value < |b| && b[m.value] != [] && Before(BySubject, t, b[m.value][0])
    ensures AllAfter(b, t)
  {
    hide LowestUpto, Streams;
    if m.None? {
      NothingInBag(b);
    } else {
      forall u | u in Bag(b) ensures Before(BySubject, t, u) {
        LowestOfBag(b, m.value, u);
      }
    }
  }

  /** Yielding an addition that nothing removes. */
  lemma EmitAddition(pos: seq<seq<Triple>>, neg: seq<seq<Triple>>, k: nat, m: Option<nat>)
    requires Balanced(pos, neg) && LowestUpto(BySubject, pos, |pos|, Some(k)) && LowestUpto(BySubject, neg, |neg|, m)
    requires k < |pos| && pos[k] != []
    requires m.Some? ==> m.value < |neg| && neg[m.value] != [] && Before(BySubject, pos[k][0], neg[m.value][0])
    ensures var t, pos' := pos[k][0], pos[k := pos[k][1..]];
      && Net(pos, neg, t) == 1 && Balanced(pos', neg)
      && (forall u :: Net(pos', neg, u) == if u == t then 0 else Net(pos, neg, u))
      && AllAfter(pos', t) && AllAfter(neg, t)
  {
    hide AllStream, LowestUpto, Before, Bag;
    var t, pos' := pos[k][0], pos[k := pos[k][1..]];
    NothingBelow(neg, m, t);
    assert Net(pos, neg, t) <= 1;
    Unmatched(pos, neg, k);
    forall u ensures Net(pos', neg, u) == (if u == t then 0 else Net(pos, neg, u)) && -1 <= Net(pos', neg, u) <= 1 {
      assert -1 <= Net(pos, neg, u) <= 1;
    }
  }

  /** Yielding a removal that nothing adds. */
  lemma EmitRemoval(pos: seq<seq<Triple>>, neg: seq<seq<Triple>>, k: Option<nat>, m: nat)
    requires Balanced(pos, neg) && LowestUpto(BySubject, pos, |pos|, k) && LowestUpto(BySubject, neg, |neg|, Some(m))
    requires m < |neg| && neg[m] != []
    requires k.Some? ==> k.value < |pos| && pos[k.value] != [] && Before(BySubject, neg[m][0], pos[k.value][0])
    ensures var t, neg' := neg[m][0], neg[m := neg[m][1..]];
      && Net(pos, neg, t) == -1 && Balanced(pos, neg')
      && (forall u :: Net(pos, neg', u) == if u == t then 0 else Net(pos, neg, u))
      && AllAfter(pos, t) && AllAfter(neg', t)
  {
    hide AllStream, LowestUpto, Before, Bag;
    var t, neg' := neg[m][0], neg[m := neg[m][1..]];
    NothingBelow(pos, k, t);
    assert -1 <= Net(pos, neg, t);
    Unmatched(neg, pos, m);
    forall u ensures Net(pos, neg', u) == (if u == t then 0 else Net(pos, neg, u)) && -1 <= Net(pos, neg', u) <= 1 {
      assert -1 <= Net(pos, neg, u) <= 1;
    }
  }

  /** An addition and a removal of the same triple cancel. */
  lemma CancelPair(pos: seq<seq<Triple>>, neg: seq<seq<Triple>>, k: nat, m: nat)
    requires Balanced(pos, neg) && k < |pos| && m < |neg| && pos[k] != [] && neg[m] != [] && pos[k][0] == neg[m][0]
    ensures var pos', neg' := pos[k := pos[k][1..]], neg[m := neg[m][1..]];
      Balanced(pos', neg') && forall u :: Net(pos', neg', u) == Net(pos, neg, u)
  {
    hide AllStream, Bag;
    BagHead(pos, k);
    BagHead(neg, m);
    StreamsAfter(BySubject, Everything, pos, k);
    StreamsAfter(BySubject, Everything, neg, m);
    var pos', neg' := pos[k := pos[k][1..]], neg[m := neg[m][1..]];
    forall u ensures Net(pos', neg', u) == Net(pos, neg, u) && -1 <= Net(pos', neg', u) <= 1 {
      assert -1 <= Net(pos, neg, u) <= 1;
    }
  }

  /** `r` reports the first net change of a queue and leaves the others; nothing is reported
      exactly when no net change is left. */
  ghost predicate Reports(r: Option<Change>, pos: seq<seq<Triple>>, neg: seq<seq<Triple>>, pos': seq<seq<Triple>>,
      neg': seq<seq<Triple>>) {
    match r
    case None => forall u :: Net(pos, neg, u) == 0
    case Some((change, t)) =>
      && Net(pos, neg, t) == (if change == Addition then 1 else -1)
      && (forall u :: Net(pos', neg', u) == if u == t then 0 else Net(pos, neg, u))
      && (forall u :: Net(pos', neg', u) != 0 ==> Before(BySubject, t, u))
  }

  class StackIterator {
    const positives: seq<LayerIterator>
    const negatives: seq<LayerIterator>

    ghost predicate Valid()
      reads Footprint(positives), Footprint(negatives)
    {
      && Apart(positives, negatives) && Apart(negatives, positives)
      && Balanced(Rests(positives), Rests(negatives))
    }

    ghost function Left(): nat
      requires Valid()
      reads Footprint(positives), Footprint(negatives)
    {
      TotalLength(Rests(positives)) + TotalLength(Rests(negatives))
    }

    constructor (positives: seq<LayerIterator>, negatives: seq<LayerIterator>)
      ensures this.positives == positives && this.negatives == negatives
    {
      this.positives, this.negatives := positives, negatives;
    }

    /** Reports the next net change, if there is one left. */
    method Next() returns (r: Option<Change>)
      requires Valid()
      modifies Footprint(positives), Footprint(negatives)
      ensures Valid()
      ensures Reports(r, old(Rests(positives)), old(Rests(negatives)), Rests(positives), Rests(negatives))
      ensures r.Some? ==> Left() < old(Left())
    {
      hide LayerIterator.Repr, AllValid, Rests, Footprint, Balanced, Net, LowestUpto, Before, Bag, AllAfter;
      ghost var pos0, neg0 := Rests(positives), Rests(negatives);
      while true
        invariant Valid() && Left() <= old(Left())
        invariant forall u :: Net(Rests(positives), Rests(negatives), u) == Net(pos0, neg0, u)
        decreases Left()
      {
        ghost var pos, neg := Rests(positives), Rests(negatives);
        var lowestPos := LowestOf(BySubject, positives, negatives);
        ApartSymmetric(positives, negatives);
        var lowestNeg := LowestOf(BySubject, negatives, positives);
        ApartSymmetric(negatives, positives);
        if lowestPos.Some? { LowestExists(BySubject, pos, lowestPos.value); BagHead(pos, lowestPos.value); }
        if lowestNeg.Some? { LowestExists(BySubject, neg, lowestNeg.value); BagHead(neg, lowestNeg.value); }
        if lowestPos.None? && lowestNeg.None? {
          NoChange(pos, neg);
          return None;
        }
        var order := 0;
        if lowestPos.Some? && lowestNeg.Some? {
          var p := PeekFirst(positives, negatives, lowestPos.value);
          ApartSymmetric(positives, negatives);
          var n := PeekFirst(negatives, positives, lowestNeg.value);
          ApartSymmetric(negatives, positives);
          Trichotomy(p, n);
          order := if Before(BySubject, p, n) then -1 else if Before(BySubject, n, p) then 1 else 0;
        } else {
          order := if lowestPos.Some? then -1 else 1;
        }
        if order < 0 {
          // the next change is an addition without a matching removal
          EmitAddition(pos, neg, lowestPos.value, lowestNeg);
          var t := TakeAt(positives, negatives, lowestPos.value);
          ApartSymmetric(positives, negatives);
          OnlyLater(Rests(positives), Rests(negatives), t);
          return Some((Addition, t));
        } else if order > 0 {
          // the next change is a removal without a matching addition
          EmitRemoval(pos, neg, lowestPos, lowestNeg.value);
          var t := TakeAt(negatives, positives, lowestNeg.value);
          ApartSymmetric(negatives, positives);
          OnlyLater(Rests(positives), Rests(negatives), t);
          return Some((Removal, t));
        }
        // an addition and a removal of the same triple cancel each other
        CancelPair(pos, neg, lowestPos.value, lowestNeg.value);
        var t := TakeAt(positives, negatives, lowestPos.value);
        ApartSymmetric(positives, negatives);
        t := TakeAt(negatives, positives, lowestNeg.value);
        ApartSymmetric(negatives, positives);
      }
    }
  }

  method PeekFirst(its: seq<LayerIterator>, others: seq<LayerIterator>, k: nat) returns (t: Triple)
    requires Apart(its, others) && k < |its| && Rests(its)[k] != []
    modifies Footprint(its)
    ensures Apart(its, others) && t == old(Rests(its))[k][0]
    ensures Rests(its) == old(Rests(its)) && Rests(others) == old(Rests(others))
  {
    hide LayerIterator.Valid, LayerIterator.Rest, AllValid;
    PartOfFootprint(its, k);
    var r := PeekAt(its, k);
    UnmovedAll(others);
    t := r.value;
  }

  lemma Trichotomy(a: Triple, b: Triple)
    ensures a == b || Before(BySubject, a, b) || Before(BySubject, b, a)
    ensures !(Before(BySubject, a, b) && Before(BySubject, b, a)) && !Before(BySubject, a, a)
  {
  }

  lemma NoChange(pos: seq<seq<Triple>>, neg: seq<seq<Triple>>)
    requires LowestUpto(BySubject, pos, |pos|, None) && LowestUpto(BySubject, neg, |neg|, None)
    ensures forall u :: Net(pos, neg, u) == 0
  {
    NothingInBag(pos);
    NothingInBag(neg);
  }

  lemma OnlyLater(pos: seq<seq<Triple>>, neg: seq<seq<Triple>>, t: Triple)
    requires AllAfter(pos, t) && AllAfter(neg, t)
    ensures forall u :: Net(pos, neg, u) != 0 ==> Before(BySubject, t, u)
  {
  }

  /* ---- the whole report ---- */

  /** `out` reports, in strictly increasing triple order, exactly the net changes of a queue. */
  ghost predicate ReportOf(out: seq<Change>, pos: seq<seq<Triple>>, neg: seq<seq<Triple>>) {
    && (forall i, j :: 0 <= i < j < |out| ==> Before(BySubject, out[i].1, out[j].1))
    && (forall t :: (Addition, t) in out <==> Net(pos, neg, t) == 1)
    && (forall t :: (Removal, t) in out <==> Net(pos, neg, t) == -1)
  }

  /** `out` is the part of the report before what is still queued. */
  ghost predicate PartialReport(out: seq<Change>, pos0: seq<seq<Triple>>, neg0: seq<seq<Triple>>,
      pos: seq<seq<Triple>>, neg: seq<seq<Triple>>) {
    && (forall i, j :: 0 <= i < j < |out| ==> Before(BySubject, out[i].1, out[j].1))
    && (forall i :: 0 <= i < |out| ==> Net(pos0, neg0, out[i].1) == (if out[i].0 == Addition then 1 else -1))
    && (forall t {:trigger Net(pos, neg, t)} {:trigger Net(pos0, neg0, t)} :: Net(pos, neg, t) == Net(pos0, neg0, t)
          || (Net(pos, neg, t) == 0 && exists i :: 0 <= i < |out| && out[i].1 == t))
    && (forall i, t :: 0 <= i < |out| && Net(pos, neg, t) != 0 ==> Before(BySubject, out[i].1, t))
  }

  lemma ReportStep(out: seq<Change>, pos0: seq<seq<Triple>>, neg0: seq<seq<Triple>>,
                   pos: seq<seq<Triple>>, neg: seq<seq<Triple>>, pos': seq<seq<Triple>>, neg': seq<seq<Triple>>,
                       r: Change)
    requires PartialReport(out, pos0, neg0, pos, neg) && Reports(Some(r), pos, neg, pos', neg')
    ensures PartialReport(out + [r], pos0, neg0, pos', neg')
  {
    hide Before, Net;
    var out' := out + [r];
    assert out'[|out|] == r;
    forall t ensures Net(pos', neg', t) == Net(pos0, neg0, t) ||
      (Net(pos', neg', t) == 0 && exists i :: 0 <= i < |out'| && out'[i].1 == t) {
      if t != r.1 && Net(pos, neg, t) != Net(pos0, neg0, t) {
        var i :| 0 <= i < |out| && out[i].1 == t;
        assert out'[i].1 == t;
      }
    }
    assert Net(pos0, neg0, r.1) == Net(pos, neg, r.1);
  }

  lemma ReportDone(out: seq<Change>, pos0: seq<seq<Triple>>, neg0: seq<seq<Triple>>, pos: seq<seq<Triple>>,
      neg: seq<seq<Triple>>)
    requires PartialReport(out, pos0, neg0, pos, neg) && forall u :: Net(pos, neg, u) == 0
    requires forall u :: -1 <= Net(pos0, neg0, u) <= 1
    ensures ReportOf(out, pos0, neg0)
  {
    hide Before, Net;
    forall t ensures (Addition, t) in out <==> Net(pos0, neg0, t) == 1 {
      if Net(pos0, neg0, t) == 1 {
        var i :| 0 <= i < |out| && out[i].1 == t;
        assert out[i] == (Addition, t);
      }
    }
    forall t ensures (Removal, t) in out <==> Net(pos0, neg0, t) == -1 {
      if Net(pos0, neg0, t) == -1 {
        var i :| 0 <= i < |out| && out[i].1 == t;
        assert out[i] == (Removal, t);
      }
    }
  }

  method CollectChanges(it: StackIterator) returns (out: seq<Change>)
    requires it.Valid()
    modifies Footprint(it.positives), Footprint(it.negatives)
    ensures ReportOf(out, old(Rests(it.positives)), old(Rests(it.negatives)))
  {
    hide LayerIterator.Repr, AllValid, Rests, Footprint, PartialReport, ReportOf, AllStream, Before, Bag,
      StackIterator.Left;
    ghost var pos0, neg0 := Rests(it.positives), Rests(it.negatives);
    out := [];
    EmptyReport(pos0, neg0);
    while true
      invariant it.Valid() && PartialReport(out, pos0, neg0, Rests(it.positives), Rests(it.negatives))
      decreases it.Left()
    {
      ghost var pos, neg := Rests(it.positives), Rests(it.negatives);
      var next := it.Next();
      if next.None? {
        ReportDone(out, pos0, neg0, pos, neg);
        return;
      }
      ReportStep(out, pos0, neg0, pos, neg, Rests(it.positives), Rests(it.negatives), next.value);
      out := out + [next.value];
    }
  }

  lemma EmptyReport(pos: seq<seq<Triple>>, neg: seq<seq<Triple>>)
    ensures PartialReport([], pos, neg, pos, neg)
  {
  }

  /** The report depends only on the net changes: permuting or regrouping the parts of a stack
      iterator does not change what it reports. */
  lemma ReportIsUnique(a: seq<Change>, b: seq<Change>, pos: seq<seq<Triple>>, neg: seq<seq<Triple>>,
      pos': seq<seq<Triple>>, neg': seq<seq<Triple>>)
    requires ReportOf(a, pos, neg) && ReportOf(b, pos', neg')
    requires forall t :: Net(pos, neg, t) == Net(pos', neg', t)
    ensures a == b
  {
    hide Net;
    var le := (x: Change, y: Change) => Before(BySubject, x.1, y.1) ||
      (x.1 == y.1 && (x.0 == Addition || y.0 == Removal));
    assert TotalOrder(le);
    forall c ensures c in a <==> c in b {
      assert c == (Addition, c.1) || c == (Removal, c.1);
    }
    AscendingIsUnique(le, a, b);
  }
}
