/** Id triples and the two orders the indexes enumerate them in. */
module Triples {
  import opened Sorting

  datatype Option<+T> = None | Some(value: T)

  datatype Triple = Triple(s: nat, p: nat, o: nat) {
    predicate IsReal() {
      s != 0 && p != 0 && o != 0
    }
  }

  predicate Nonzero(t: Triple) {
    t.IsReal()
  }

  /** BySubject is the derived order of an id triple: subject, predicate, object.
      ByObject is the order of the object index: object, subject, predicate. */
  datatype Order = BySubject | ByObject

  predicate Before(ord: Order, a: Triple, b: Triple) {
    match ord
    case BySubject =>
      a.s < b.s || (a.s == b.s && (a.p < b.p || (a.p == b.p && a.o < b.o)))
    case ByObject =>
      a.o < b.o || (a.o == b.o && (a.s < b.s || (a.s == b.s && a.p < b.p)))
  }

  predicate Increasing(ord: Order, ts: seq<Triple>) {
    forall i, j :: 0 <= i < j < |ts| ==> Before(ord, ts[i], ts[j])
  }

  predicate AllReal(ts: seq<Triple>) {
    forall i :: 0 <= i < |ts| ==> ts[i].IsReal()
  }

  lemma IncreasingAppend(ord: Order, ts: seq<Triple>, t: Triple)
    requires Increasing(ord, ts) && forall i :: 0 <= i < |ts| ==> Before(ord, ts[i], t)
    ensures Increasing(ord, ts + [t])
  {
  }

  lemma IncreasingConcat(ord: Order, a: seq<Triple>, b: seq<Triple>)
    requires Increasing(ord, a) && Increasing(ord, b)
    requires forall i, j :: 0 <= i < |a| && 0 <= j < |b| ==> Before(ord, a[i], b[j])
    ensures Increasing(ord, a + b)
  {
  }

  function SubjectOrder(): (le: (Triple, Triple) -> bool)
    ensures TotalOrder(le)
  {
    (a: Triple, b: Triple) => a == b || Before(BySubject, a, b)
  }

  lemma AscendingIsIncreasing(ts: seq<Triple>)
    ensures Ascending(SubjectOrder(), ts) <==> Increasing(BySubject, ts)
  {
  }

  lemma IncreasingIsUnique(ord: Order, a: seq<Triple>, b: seq<Triple>)
    requires Increasing(ord, a) && Increasing(ord, b) && Elements(a) == Elements(b)
    ensures a == b
  {
    var le := (x: Triple, y: Triple) => x == y || Before(ord, x, y);
    assert TotalOrder(le);
    AscendingIsUnique(le, a, b);
  }

  function Filter(keep: Triple -> bool, ts: seq<Triple>): seq<Triple> {
    if ts == [] then []
    else (if keep(ts[0]) then [ts[0]] else []) + Filter(keep, ts[1..])
  }

  lemma {:induction false} FilterElement(keep: Triple -> bool, ts: seq<Triple>, t: Triple)
    ensures t in Filter(keep, ts) <==> t in ts && keep(t)
  {
    if ts != [] {
      FilterElement(keep, ts[1..], t);
      assert t in ts <==> t == ts[0] || t in ts[1..];
    }
  }

  lemma {:induction false} FilterAppend(keep: Triple -> bool, a: seq<Triple>, b: seq<Triple>)
    ensures Filter(keep, a + b) == Filter(keep, a) + Filter(keep, b)
  {
    if a == [] {
      assert a + b == b;
      assert Filter(keep, a) == [];
    } else {
      var rest := a[1..];
      assert (a + b)[1..] == rest + b;
      FilterAppend(keep, rest, b);
      var head := if keep(a[0]) then [a[0]] else [];
      assert head + (Filter(keep, rest) + Filter(keep, b)) == (head + Filter(keep, rest)) + Filter(keep, b);
    }
  }

  lemma {:induction false} FilterKeepsAll(keep: Triple -> bool, ts: seq<Triple>)
    requires forall i :: 0 <= i < |ts| ==> keep(ts[i])
    ensures Filter(keep, ts) == ts
  {
    if ts != [] {
      assert forall i :: 0 <= i < |ts[1..]| ==> ts[1..][i] == ts[i + 1];
      FilterKeepsAll(keep, ts[1..]);
    }
  }

  lemma {:induction false} FilterDropsAll(keep: Triple -> bool, ts: seq<Triple>)
    requires forall i :: 0 <= i < |ts| ==> !keep(ts[i])
    ensures Filter(keep, ts) == []
  {
    if ts != [] {
      assert forall i :: 0 <= i < |ts[1..]| ==> ts[1..][i] == ts[i + 1];
      FilterDropsAll(keep, ts[1..]);
    }
  }

  lemma {:induction false} FilterIncreases(ord: Order, keep: Triple -> bool, ts: seq<Triple>)
    requires Increasing(ord, ts)
    ensures Increasing(ord, Filter(keep, ts))
  {
    if ts != [] {
      assert forall i :: 0 <= i < |ts[1..]| ==> ts[1..][i] == ts[i + 1];
      FilterIncreases(ord, keep, ts[1..]);
      var rest := Filter(keep, ts[1..]);
      forall i | 0 <= i < |rest| ensures Before(ord, ts[0], rest[i]) {
        FilterElement(keep, ts[1..], rest[i]);
      }
    }
  }

  /** `t` may be appended to an increasing list of nonzero triples; zeros are skipped. */
  predicate Follows(ts: seq<Triple>, t: Triple) {
    Nonzero(t) && ts != [] ==> Before(BySubject, ts[|ts| - 1], t)
  }

  lemma FilterSnoc(keep: Triple -> bool, ts: seq<Triple>, i: nat)
    requires i < |ts|
    ensures Filter(keep, ts[..i + 1]) == Filter(keep, ts[..i]) + (if keep(ts[i]) then [ts[i]] else [])
  {
    assert ts[..i + 1] == ts[..i] + [ts[i]];
    FilterAppend(keep, ts[..i], [ts[i]]);
    assert Filter(keep, [ts[i]]) == if keep(ts[i]) then [ts[i]] else [];
  }

  lemma FilterTake(keep: Triple -> bool, ts: seq<Triple>, i: nat)
    requires i <= |ts|
    ensures Filter(keep, ts) == Filter(keep, ts[..i]) + Filter(keep, ts[i..])
  {
    FilterAppend(keep, ts[..i], ts[i..]);
    assert ts[..i] + ts[i..] == ts;
  }

  /** Reading a list one element at a time, skipping zeros. */
  lemma NonzeroNext(ts: seq<Triple>, i: nat)
    requires i < |ts| && Increasing(BySubject, Filter(Nonzero, ts))
    ensures Filter(Nonzero, ts[..i + 1]) == Filter(Nonzero, ts[..i]) + (if Nonzero(ts[i]) then [ts[i]] else [])
    ensures Follows(Filter(Nonzero, ts[..i]), ts[i])
  {
    FilterSnoc(Nonzero, ts, i);
    FilterTake(Nonzero, ts, i + 1);
    var before := Filter(Nonzero, ts[..i]);
    if Nonzero(ts[i]) && before != [] {
      var all := Filter(Nonzero, ts);
      assert all[|before| - 1] == before[|before| - 1] && all[|before|] == ts[i];
    }
  }

  function TakeWhile(keep: Triple -> bool, ts: seq<Triple>): seq<Triple> {
    if ts == [] || !keep(ts[0]) then [] else [ts[0]] + TakeWhile(keep, ts[1..])
  }

  /** Taking while a condition holds is filtering when what satisfies it comes first. */
  lemma {:induction false} TakeWhileIsFilter(keep: Triple -> bool, ts: seq<Triple>)
    requires forall i, j :: 0 <= i < j < |ts| && keep(ts[j]) ==> keep(ts[i])
    ensures TakeWhile(keep, ts) == Filter(keep, ts)
  {
    if ts != [] {
      if keep(ts[0]) {
        assert forall i :: 0 <= i < |ts[1..]| ==> ts[1..][i] == ts[i + 1];
        TakeWhileIsFilter(keep, ts[1..]);
      } else {
        FilterDropsAll(keep, ts);
      }
    }
  }
}
