/** One layer's iterator of any of the three kinds, possibly absent, and vectors of them. */
module LayerIterators {
  import opened Sorting
  import opened Triples
  import opened SubjectIterators
  import opened PredicateIterators
  import opened ObjectIterators

  /** Absent is the iterator of a layer that has nothing of the wanted kind. */
  datatype LayerIterator =
    | Absent
    | OfSubject(s: SubjectIterator)
    | OfPredicate(p: PredicateIterator)
    | OfObject(o: ObjectIterator)
  {
    ghost function Repr(): set<object> {
      match this
      case Absent => {}
      case OfSubject(s) => {s}
      case OfPredicate(p) => {p, p.inner}
      case OfObject(o) => {o}
    }

    ghost predicate Valid()
      reads Repr()
    {
      match this
      case Absent => true
      case OfSubject(s) => s.Valid()
      case OfPredicate(p) => p.Valid()
      case OfObject(o) => o.Valid()
    }

    /** What is still to be yielded. */
    ghost function Rest(): seq<Triple>
      requires Valid()
      reads Repr()
    {
      match this
      case Absent => []
      case OfSubject(s) => s.Rest()
      case OfPredicate(p) => p.Rest()
      case OfObject(o) => o.Rest()
    }

    method Next() returns (r: Option<Triple>)
      requires Valid()
      modifies Repr()
      ensures Valid()
      ensures old(Rest()) == [] ==> r == None && Rest() == []
      ensures old(Rest()) != [] ==> r == Some(old(Rest())[0]) && Rest() == old(Rest())[1..]
    {
      match this {
        case Absent => r := None;
        case OfSubject(s) => hide SubjectIterator.Valid, SubjectIterator.Rest; r := s.Next();
        case OfPredicate(p) => hide PredicateIterator.Valid, PredicateIterator.Rest; r := p.Next();
        case OfObject(o) => hide ObjectIterator.Valid, ObjectIterator.Rest; r := o.Next();
      }
    }

    method Peek() returns (r: Option<Triple>)
      requires Valid()
      modifies Repr()
      ensures Valid() && Rest() == old(Rest())
      ensures r == if Rest() == [] then None else Some(Rest()[0])
    {
      match this {
        case Absent => r := None;
        case OfSubject(s) => hide SubjectIterator.Valid, SubjectIterator.Rest; r := s.Peek();
        case OfPredicate(p) => hide PredicateIterator.Valid, PredicateIterator.Rest; r := p.Peek();
        case OfObject(o) => hide ObjectIterator.Valid, ObjectIterator.Rest; r := o.Peek();
      }
    }
  }

  /** An iterator none of whose objects changed still has the same to yield. */
  twostate lemma Unmoved(it: LayerIterator)
    requires old(it.Valid()) && forall o :: o in it.Repr() ==> unchanged(o)
    ensures it.Valid() && it.Rest() == old(it.Rest())
  {
  }

  ghost function Footprint(its: seq<LayerIterator>): set<object> {
    set i, o | 0 <= i < |its| && o in its[i].Repr() :: o
  }

  /** The iterators of a vector are valid and share nothing. */
  ghost predicate AllValid(its: seq<LayerIterator>)
    reads Footprint(its)
  {
    && (forall i :: 0 <= i < |its| ==> its[i].Valid())
    && (forall i, j :: 0 <= i < j < |its| ==> its[i].Repr() !! its[j].Repr())
  }

  ghost function Rests(its: seq<LayerIterator>): (r: seq<seq<Triple>>)
    requires AllValid(its)
    reads Footprint(its)
    ensures |r| == |its| && forall i :: 0 <= i < |r| ==> r[i] == its[i].Rest()
  {
    if its == [] then [] else
      assert forall i :: 0 <= i < |its[1..]| ==> its[1..][i] == its[i + 1];
      [its[0].Rest()] + Rests(its[1..])
  }

  /** A vector none of whose objects changed still has the same to yield. */
  twostate lemma UnmovedAll(its: seq<LayerIterator>)
    requires old(AllValid(its)) && forall o :: o in Footprint(its) ==> unchanged(o)
    ensures AllValid(its) && Rests(its) == old(Rests(its))
  {
    hide LayerIterator.Valid, LayerIterator.Rest;
    forall i | 0 <= i < |its| ensures its[i].Valid() && its[i].Rest() == old(its[i].Rest()) {
      assert its[i].Repr() <= Footprint(its);
      Unmoved(its[i]);
    }
  }

  /** Advances one iterator of a vector. */
  method NextAt(its: seq<LayerIterator>, k: nat) returns (r: Option<Triple>)
    requires AllValid(its) && k < |its| && its[k].Rest() != []
    modifies its[k].Repr()
    ensures AllValid(its)
    ensures r == Some(old(Rests(its))[k][0])
    ensures Rests(its) == old(Rests(its))[k := old(Rests(its))[k][1..]]
  {
    hide LayerIterator.Valid, LayerIterator.Rest;
    r := its[k].Next();
    forall i | 0 <= i < |its| && i != k ensures its[i].Valid() && its[i].Rest() == old(its[i].Rest()) {
      assert its[i].Repr() !! its[k].Repr();
      assert forall o :: o in its[i].Repr() ==> o !in its[k].Repr();
      Unmoved(its[i]);
    }
  }

  method PeekAt(its: seq<LayerIterator>, k: nat) returns (r: Option<Triple>)
    requires AllValid(its) && k < |its|
    modifies its[k].Repr()
    ensures AllValid(its) && Rests(its) == old(Rests(its))
    ensures r == if Rests(its)[k] == [] then None else Some(Rests(its)[k][0])
  {
    hide LayerIterator.Valid, LayerIterator.Rest;
    r := its[k].Peek();
    forall i | 0 <= i < |its| && i != k ensures its[i].Valid() && its[i].Rest() == old(its[i].Rest()) {
      assert its[i].Repr() !! its[k].Repr();
      assert forall o :: o in its[i].Repr() ==> o !in its[k].Repr();
      Unmoved(its[i]);
    }
  }

  /** Among the first `n` streams, `r` is the first with the least head. */
  predicate LowestUpto(ord: Order, rests: seq<seq<Triple>>, n: nat, r: Option<nat>)
    requires n <= |rests|
  {
    match r
    case None => forall i :: 0 <= i < n ==> rests[i] == []
    case Some(k) =>
      && k < n && rests[k] != []
      && (forall i :: 0 <= i < n && rests[i] != [] ==> !Before(ord, rests[i][0], rests[k][0]))
      && (forall i :: 0 <= i < k && rests[i] != [] ==> rests[i][0] != rests[k][0])
  }

  lemma LowestStep(ord: Order, rests: seq<seq<Triple>>, n: nat, r: Option<nat>)
    requires n < |rests| && LowestUpto(ord, rests, n, r)
    ensures var takes := rests[n] != [] && (r.None? || Before(ord, rests[n][0], rests[r.value][0]));
      LowestUpto(ord, rests, n + 1, if takes then Some(n) else r)
  {
  }

  /** Peeks at every iterator and picks the first with the least triple. */
  method LowestIndex(ord: Order, its: seq<LayerIterator>) returns (r: Option<nat>)
    requires AllValid(its)
    modifies Footprint(its)
    ensures AllValid(its) && Rests(its) == old(Rests(its))
    ensures LowestUpto(ord, Rests(its), |its|, r)
  {
    hide LayerIterator.Repr, LayerIterator.Valid, LayerIterator.Rest, LowestUpto, Before, AllValid;
    ghost var rests := Rests(its);
    r := None;
    var least := Triple(0, 0, 0);
    assert LowestUpto(ord, rests, 0, None) by { NoneLowest(ord, rests); }
    for i := 0 to |its|
      invariant AllValid(its) && Rests(its) == rests && LowestUpto(ord, rests, i, r)
      invariant r.Some? ==> r.value < i && rests[r.value] != [] && least == rests[r.value][0]
    {
      assert its[i].Repr() <= Footprint(its);
      var head := PeekAt(its, i);
      LowestStep(ord, rests, i, r);
      if head.Some? && (r.None? || Before(ord, head.value, least)) {
        r := Some(i);
        least := head.value;
      }
    }
  }

  lemma NoneLowest(ord: Order, rests: seq<seq<Triple>>)
    ensures LowestUpto(ord, rests, 0, None)
  {
  }

  /** The first of the first `n` streams with `t` at its head, if there is one. */
  predicate FirstWithHead(rests: seq<seq<Triple>>, n: nat, t: Triple, r: Option<nat>)
    requires n <= |rests|
  {
    match r
    case None => forall i :: 0 <= i < n ==> rests[i] == [] || rests[i][0] != t
    case Some(j) => j < n && rests[j] != [] && rests[j][0] == t && forall i :: 0 <= i < j ==>
      rests[i] == [] || rests[i][0] != t
  }

  lemma FirstWithHeadStep(rests: seq<seq<Triple>>, n: nat, t: Triple)
    requires n < |rests| && FirstWithHead(rests, n, t, None)
    ensures FirstWithHead(rests, n + 1, t, if rests[n] != [] && rests[n][0] == t then Some(n) else None)
  {
  }

  lemma FirstWithHeadLater(rests: seq<seq<Triple>>, n: nat, m: nat, t: Triple, j: nat)
    requires n <= m <= |rests| && FirstWithHead(rests, n, t, Some(j))
    ensures FirstWithHead(rests, m, t, Some(j))
  {
  }

  /** Advances the first of the first `k` iterators whose next triple is `t`, if any. */
  method TakeHead(its: seq<LayerIterator>, k: nat, t: Triple) returns (r: Option<nat>)
    requires k <= |its| && AllValid(its)
    modifies Footprint(its)
    ensures AllValid(its)
    ensures FirstWithHead(old(Rests(its)), k, t, r)
    ensures r.None? ==> Rests(its) == old(Rests(its))
    ensures r.Some? ==> r.value < |its| && old(Rests(its))[r.value] != []
    ensures r.Some? ==> Rests(its) == old(Rests(its))[r.value := old(Rests(its))[r.value][1..]]
  {
    hide LayerIterator.Repr, LayerIterator.Valid, LayerIterator.Rest, AllValid, FirstWithHead;
    ghost var rests := Rests(its);
    NoneWithHead(rests, t);
    for i := 0 to k
      invariant AllValid(its) && Rests(its) == rests && FirstWithHead(rests, i, t, None)
    {
      assert its[i].Repr() <= Footprint(its);
      FirstWithHeadStep(rests, i, t);
      var head := PeekAt(its, i);
      if head == Some(t) {
        var _ := NextAt(its, i);
        FirstWithHeadLater(rests, i + 1, k, t, i);
        return Some(i);
      }
    }
    return None;
  }

  lemma NoneWithHead(rests: seq<seq<Triple>>, t: Triple)
    ensures FirstWithHead(rests, 0, t, None)
  {
  }

  lemma FootprintAppend(its: seq<LayerIterator>, it: LayerIterator)
    ensures Footprint(its + [it]) == Footprint(its) + it.Repr()
  {
    var more := its + [it];
    forall o | o in Footprint(its) + it.Repr() ensures o in Footprint(more) {
      if o in Footprint(its) {
        var i :| 0 <= i < |its| && o in its[i].Repr();
        assert more[i] == its[i];
      } else {
        assert more[|its|] == it;
      }
    }
  }

  lemma AllValidAppend(its: seq<LayerIterator>, it: LayerIterator)
    requires AllValid(its) && it.Valid() && Footprint(its) !! it.Repr()
    ensures AllValid(its + [it]) && Rests(its + [it]) == Rests(its) + [it.Rest()]
  {
    hide LayerIterator.Valid, LayerIterator.Rest, LayerIterator.Repr;
    var more := its + [it];
    forall i | 0 <= i < |its| ensures more[i] == its[i] && its[i].Repr() !! it.Repr() {
      assert forall o :: o in its[i].Repr() ==> o in Footprint(its);
    }
  }
}
