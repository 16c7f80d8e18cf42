/** The object index: which subject-predicate pairs each object occurs with, built from the
    object list by a chunked external sort and enumerated in object order. */
module ObjectIndexes {
  import opened Sorting
  import opened Triples
  import opened AdjacencyLists
  import opened TripleIndexes
  import opened SubjectIterators

  /** An object and the one-based position of its subject-predicate pair. */
  type Entry = (nat, nat)

  function EntryOrder(): (le: (Entry, Entry) -> bool)
    ensures TotalOrder(le)
  {
    (a: Entry, b: Entry) => a.0 < b.0 || (a.0 == b.0 && a.1 <= b.1)
  }

  /** The pair stream of the object list: every entry that is no stub, in order. */
  function SpoEntries(x: TripleIndex, k: nat): seq<Entry>
    requires x.Shape() && k <= |x.spo.nums|
  {
    if k == 0 then []
    else SpoEntries(x, k - 1) + (if x.spo.nums[k - 1] == 0 then [] else [(x.spo.nums[k - 1], x.SpAt(k - 1) + 1)])
  }

  lemma {:induction false} SpoEntriesAre(x: TripleIndex, k: nat, e: Entry)
    requires x.Shape() && k <= |x.spo.nums|
    ensures e in SpoEntries(x, k) <==>
      exists i :: 0 <= i < k && x.spo.nums[i] != 0 && e == (x.spo.nums[i], x.SpAt(i) + 1)
  {
    if k > 0 {
      SpoEntriesAre(x, k - 1, e);
    }
  }

  lemma {:induction false} SpoEntriesDistinct(x: TripleIndex, k: nat)
    requires x.Coherent() && k <= |x.spo.nums|
    ensures Distinct(SpoEntries(x, k))
  {
    if k > 0 && x.spo.nums[k - 1] != 0 {
      SpoEntriesDistinct(x, k - 1);
      var e := (x.spo.nums[k - 1], x.SpAt(k - 1) + 1);
      SpoEntriesAre(x, k - 1, e);
      assert e !in SpoEntries(x, k - 1);
    } else if k > 0 {
      SpoEntriesDistinct(x, k - 1);
    }
  }

  datatype ObjectIndex = ObjectIndex(x: TripleIndex, objects: Option<seq<nat>>, ops: AdjacencyList) {

    ghost predicate Shape() {
      x.Shape() && ops.Valid() && (objects.Some? ==> |objects.value| == ops.LeftCount())
    }

    function ObjectAt(k: nat): nat
      requires Shape() && k < |ops.nums|
    {
      LeftInRange(ops, k);
      match objects
      case Some(list) => list[Rank(ops.bits, k)]
      case None => Rank(ops.bits, k) + 1
    }

    function EntriesUpto(k: nat): seq<Entry>
      requires Shape() && k <= |ops.nums|
    {
      if k == 0 then []
      else EntriesUpto(k - 1) + (if ops.nums[k - 1] == 0 then [] else [(ObjectAt(k - 1), ops.nums[k - 1])])
    }

    function EntriesFrom(k: nat): seq<Entry>
      requires Shape() && k <= |ops.nums|
      decreases |ops.nums| - k
    {
      if k == |ops.nums| then []
      else (if ops.nums[k] == 0 then [] else [(ObjectAt(k), ops.nums[k])]) + EntriesFrom(k + 1)
    }

    function Entries(): seq<Entry>
      requires Shape()
    {
      EntriesUpto(|ops.nums|)
    }

    /** The triple an entry stands for. */
    function TripleOf(e: Entry): Triple
      requires x.Shape()
    {
      if 1 <= e.1 <= |x.sp.nums| then Triple(x.SubjectAt(e.1 - 1), x.sp.nums[e.1 - 1], e.0) else Triple(0, 0, 0)
    }

    function TriplesOf(es: seq<Entry>): (ts: seq<Triple>)
      requires x.Shape()
      ensures |ts| == |es| && forall i :: 0 <= i < |ts| ==> ts[i] == TripleOf(es[i])
    {
      seq(|es|, i requires 0 <= i < |es| => TripleOf(es[i]))
    }

    /** The triples in the order this index enumerates them. */
    function Listing(): seq<Triple>
      requires Shape()
    {
      TriplesOf(Entries())
    }

    ghost predicate ObjectsAscend() {
      objects.Some? ==>
        && (forall i :: 0 <= i < |objects.value| ==> objects.value[i] > 0)
        && (forall i, j :: 0 <= i < j < |objects.value| ==> objects.value[i] < objects.value[j])
    }

    ghost predicate Coherent() {
      && x.Coherent() && Shape() && ObjectsAscend()
      && Ascending(EntryOrder(), Entries())
      && Elements(Entries()) == Elements(SpoEntries(x, |x.spo.nums|))
    }
  }

  /** An entry of the index is an entry of the object list. */
  lemma EntryPosition(oi: ObjectIndex, e: Entry) returns (k: nat)
    requires oi.Coherent() && e in oi.Entries()
    ensures k < |oi.x.spo.nums| && oi.x.spo.nums[k] != 0 && e == (oi.x.spo.nums[k], oi.x.SpAt(k) + 1)
  {
    var n := |oi.x.spo.nums|;
    assert e in Elements(oi.Entries());
    SpoEntriesAre(oi.x, n, e);
    k :| 0 <= k < n && oi.x.spo.nums[k] != 0 && e == (oi.x.spo.nums[k], oi.x.SpAt(k) + 1);
  }

  lemma ListingInOrder(oi: ObjectIndex)
    requires oi.Coherent()
    ensures Increasing(ByObject, oi.Listing())
  {
    hide TripleIndex.Coherent, ObjectIndex.Entries;
    var es := oi.Entries();
    forall i, j | 0 <= i < j < |es| ensures Before(ByObject, oi.TripleOf(es[i]), oi.TripleOf(es[j])) {
      var k := EntryPosition(oi, es[i]);
      var m := EntryPosition(oi, es[j]);
      assert EntryOrder()(es[i], es[j]) && es[i] != es[j];
      EntriesInOrder(oi.x, oi, es[i], es[j]);
    }
  }

  lemma ListedIsStored(oi: ObjectIndex, t: Triple)
    requires oi.Coherent() && t in oi.Listing()
    ensures t in oi.x.Listing()
  {
    hide TripleIndex.Coherent, ObjectIndex.Entries, TripleIndex.Upto, Ascending, Elements;
    var i :| 0 <= i < |oi.Entries()| && oi.TripleOf(oi.Entries()[i]) == t;
    var k := EntryPosition(oi, oi.Entries()[i]);
    UptoElements(oi.x, |oi.x.spo.nums|, t);
    assert oi.x.TripleAt(k) == t;
  }

  lemma StoredIsListed(oi: ObjectIndex, t: Triple)
    requires oi.Coherent() && t in oi.x.Listing()
    ensures t in oi.Listing()
  {
    hide TripleIndex.Coherent, ObjectIndex.Entries, TripleIndex.Upto, Ascending;
    var es, n := oi.Entries(), |oi.x.spo.nums|;
    UptoElements(oi.x, n, t);
    var k :| 0 <= k < n && oi.x.spo.nums[k] != 0 && oi.x.TripleAt(k) == t;
    var e := (oi.x.spo.nums[k], oi.x.SpAt(k) + 1);
    SpoEntriesAre(oi.x, n, e);
    assert e in Elements(es);
    var i :| 0 <= i < |es| && es[i] == e;
    assert oi.Listing()[i] == t;
  }

  /** The object index lists exactly the triples of the subject index, in object order. */
  lemma ListingAgrees(oi: ObjectIndex)
    requires oi.Coherent()
    ensures Increasing(ByObject, oi.Listing())
    ensures Elements(oi.Listing()) == Elements(oi.x.Listing())
  {
    hide TripleIndex.Coherent, ObjectIndex.Entries, ObjectIndex.Listing, TripleIndex.Listing, Ascending, EntryOrder;
    ListingInOrder(oi);
    forall t ensures t in oi.Listing() <==> t in oi.x.Listing() {
      if t in oi.Listing() { ListedIsStored(oi, t); }
      if t in oi.x.Listing() { StoredIsListed(oi, t); }
    }
  }

  lemma EntriesInOrder(x: TripleIndex, oi: ObjectIndex, a: Entry, b: Entry)
    requires oi.x == x && x.Coherent() && 1 <= a.1 <= |x.sp.nums| && 1 <= b.1 <= |x.sp.nums|
    requires EntryOrder()(a, b) && a != b
    ensures Before(ByObject, oi.TripleOf(a), oi.TripleOf(b))
  {
    if a.0 == b.0 {
      LaterSubject(x, a.1 - 1, b.1 - 1);
    }
  }

  /* ---- building ---- */

  /** Pushing an entry for the same object, or for a new last object, appends it to the entries. */
  lemma EntriesPushed(oi: ObjectIndex, objects: Option<seq<nat>>, left: nat, right: nat)
    requires oi.Shape() && oi.ops.LeftCount() <= left && right > 0
    requires left == oi.ops.LeftCount() ==> oi.ops.nums != [] && objects == oi.objects
    requires match oi.objects
      case None => objects.None?
      case Some(list) => objects.Some? && |objects.value| == left && list <= objects.value
    ensures var y := oi.(objects := objects, ops := Pushed(oi.ops, oi.ops.LeftCount(), left, right));
      && y.Shape() && left > 0
      && y.Entries() == oi.Entries() + [(if objects.Some? then objects.value[left - 1] else left, right)]
  {
    hide Pushed, Rank, ObjectIndex.EntriesUpto;
    var lastLeft, n := oi.ops.LeftCount(), |oi.ops.nums|;
    var y := oi.(objects := objects, ops := Pushed(oi.ops, lastLeft, left, right));
    PushedLeftCount(oi.ops, lastLeft, left, right);
    PushedRanks(oi.ops, lastLeft, left, right);
    PushedNums(oi.ops, lastLeft, left, right);
    forall k | 0 <= k < n ensures y.ops.nums[k] == oi.ops.nums[k] && y.ObjectAt(k) == oi.ObjectAt(k) {
      LeftInRange(oi.ops, k);
    }
    EntriesPrefix(oi, y, n);
    EntriesOverStubs(y, n, |y.ops.nums| - 1 - n);
    LastEntry(y);
  }

  lemma LastEntry(y: ObjectIndex)
    requires y.Shape() && y.ops.nums != [] && y.ops.nums[|y.ops.nums| - 1] != 0
    ensures var k := |y.ops.nums| - 1; y.Entries() == y.EntriesUpto(k) + [(y.ObjectAt(k), y.ops.nums[k])]
  {
  }

  lemma PushedNums(a: AdjacencyList, lastLeft: nat, left: nat, right: nat)
    requires a.Valid() && lastLeft <= left && (left == lastLeft ==> a.nums != [])
    ensures var r := Pushed(a, lastLeft, left, right);
      && (forall k :: 0 <= k < |a.nums| ==> r.nums[k] == a.nums[k])
      && (forall k :: |a.nums| <= k < |r.nums| - 1 ==> r.nums[k] == 0)
  {
  }

  lemma {:induction false} EntriesPrefix(x: ObjectIndex, y: ObjectIndex, k: nat)
    requires x.Shape() && y.Shape() && k <= |x.ops.nums| && k <= |y.ops.nums|
    requires forall i :: 0 <= i < k ==> y.ops.nums[i] == x.ops.nums[i] && y.ObjectAt(i) == x.ObjectAt(i)
    ensures x.EntriesUpto(k) == y.EntriesUpto(k)
  {
    if k > 0 {
      EntriesPrefix(x, y, k - 1);
    }
  }

  lemma {:induction false} EntriesOverStubs(y: ObjectIndex, k: nat, n: nat)
    requires y.Shape() && k + n <= |y.ops.nums| && forall i :: k <= i < k + n ==> y.ops.nums[i] == 0
    ensures y.EntriesUpto(k + n) == y.EntriesUpto(k)
  {
    if n > 0 {
      EntriesOverStubs(y, k, n - 1);
    }
  }

  /** Sorts the gathered entries and sets them aside as a run. */
  method Flush(runs: seq<seq<Entry>>, pairs: seq<Entry>) returns (more: seq<seq<Entry>>)
    requires AllSorted(EntryOrder(), runs)
    ensures AllSorted(EntryOrder(), more) && Bag(more) == Bag(runs) + multiset(pairs)
  {
    hide AllSorted, Sorted, TotalOrder;
    var sorted := Sort(EntryOrder(), pairs);
    SortIsSorted(EntryOrder(), pairs);
    BagAppend(runs, sorted);
    MoreRuns(EntryOrder(), runs, sorted);
    more := runs + [sorted];
  }

  /** Gathers the pair stream, sorting and setting aside a run whenever `chunkLimit` entries
      are held; the rest, always less than a chunk, becomes the last run. */
  method SortedRuns(x: TripleIndex, chunkLimit: nat) returns (runs: seq<seq<Entry>>)
    requires x.Coherent() && chunkLimit > 0
    ensures AllSorted(EntryOrder(), runs) && Bag(runs) == multiset(SpoEntries(x, |x.spo.nums|))
  {
    hide TripleIndex.Coherent, AllSorted, Bag, SpoEntries, Rank, EntryOrder;
    CoherentShape(x);
    var pairs: seq<Entry> := [];
    runs := [];
    NoRuns(EntryOrder(), runs);
    EntriesBag(x, 0, pairs);
    var tally := 0;
    for k := 0 to |x.spo.nums|
      invariant AllSorted(EntryOrder(), runs)
      invariant Bag(runs) + multiset(pairs) == multiset(SpoEntries(x, k))
      invariant tally % chunkLimit == |pairs| < chunkLimit
    {
      EntriesBag(x, k + 1, pairs);
      if x.spo.nums[k] != 0 {
        pairs := pairs + [(x.spo.nums[k], x.SpAt(k) + 1)];
        TallyStep(tally, chunkLimit);
        tally := tally + 1;
        if tally % chunkLimit == 0 {
          runs := Flush(runs, pairs);
          pairs := [];
        }
      }
    }
    runs := Flush(runs, pairs);
  }

  lemma EntriesBag(x: TripleIndex, k: nat, pairs: seq<Entry>)
    requires x.Shape() && k <= |x.spo.nums|
    ensures k == 0 ==> multiset(SpoEntries(x, k)) == multiset{}
    ensures k > 0 && x.spo.nums[k - 1] == 0 ==> SpoEntries(x, k) == SpoEntries(x, k - 1)
    ensures k > 0 && x.spo.nums[k - 1] != 0 ==>
      var e := (x.spo.nums[k - 1], x.SpAt(k - 1) + 1);
      && multiset(SpoEntries(x, k)) == multiset(SpoEntries(x, k - 1)) + multiset{e}
      && multiset(pairs + [e]) == multiset(pairs) + multiset{e}
  {
  }

  /** The entries of the object list in object order, whatever the chunk limit. */
  method SortedEntries(x: TripleIndex, chunkLimit: nat) returns (merged: seq<Entry>)
    requires x.Coherent() && chunkLimit > 0
    ensures Ascending(EntryOrder(), merged)
    ensures Elements(merged) == Elements(SpoEntries(x, |x.spo.nums|))
  {
    hide AllSorted, Sorted, Ascending, Bag, TotalOrder, Elements, SpoEntries;
    var runs := SortedRuns(x, chunkLimit);
    merged := MergeRuns(EntryOrder(), runs);
    SpoEntriesDistinct(x, |x.spo.nums|);
    SortedDistinctAscends(EntryOrder(), merged, SpoEntries(x, |x.spo.nums|));
  }

  lemma TallyStep(tally: nat, limit: nat)
    requires limit > 0
    ensures (tally + 1) % limit == if tally % limit + 1 == limit then 0 else tally % limit + 1
  {
    var q, r := tally / limit, tally % limit;
    var q', r' := (tally + 1) / limit, (tally + 1) % limit;
    assert limit * (q' - q) == r + 1 - r' by {
      assert tally == limit * q + r && tally + 1 == limit * q' + r';
    }
    if q' - q >= 1 {
      AtLeastOnce(limit, q' - q);
    } else if q' - q <= -1 {
      AtLeastOnce(limit, q - q');
    }
  }

  lemma AtLeastOnce(limit: nat, k: nat)
    requires k >= 1
    ensures limit * k >= limit
  {
  }

  lemma NoRuns<T(!new)>(le: (T, T) -> bool, runs: seq<seq<T>>)
    ensures runs == [] ==> AllSorted(le, runs) && Bag(runs) == multiset{}
  {
  }

  lemma MoreRuns<T(!new)>(le: (T, T) -> bool, runs: seq<seq<T>>, run: seq<T>)
    requires AllSorted(le, runs) && Sorted(le, run)
    ensures AllSorted(le, runs + [run])
  {
    forall r | 0 <= r < |runs + [run]| ensures Sorted(le, (runs + [run])[r]) {
      if r < |runs| {
        assert Sorted(le, runs[r]);
      }
    }
  }

  /** What is known while the sorted entries are pushed: `done` of them are in the index. */
  ghost predicate Building(oi: ObjectIndex, merged: seq<Entry>, done: nat, lastObject: nat, lastRight: nat) {
    && oi.Shape() && oi.ObjectsAscend() && done <= |merged| && oi.Entries() == merged[..done]
    && lastObject == (if done == 0 then 0 else merged[done - 1].0)
    && (if done == 0 then oi.ops.nums == [] else oi.ops.nums != [] && lastRight == merged[done - 1].1)
    && (match oi.objects
        case None => oi.ops.LeftCount() == lastObject
        case Some(list) => if done == 0 then list == [] else list != [] && list[|list| - 1] == lastObject)
  }

  lemma BuildingStep(oi: ObjectIndex, merged: seq<Entry>, done: nat, lastObject: nat, lastRight: nat,
      objects: Option<seq<nat>>, left: nat)
    requires Building(oi, merged, done, lastObject, lastRight) && done < |merged|
    requires Ascending(EntryOrder(), merged) && forall i :: 0 <= i < |merged| ==> merged[i].0 > 0 && merged[i].1 > 0
    requires objects == if oi.objects.Some? && merged[done].0 > lastObject
      then Some(oi.objects.value + [merged[done].0]) else oi.objects
    requires left == if objects.Some? then |objects.value| else merged[done].0
    ensures var sp := merged[done].1; var lastLeft := oi.ops.LeftCount();
      && (lastLeft < left || (lastLeft == left && left > 0 && oi.ops.nums != [] && lastRight < sp))
      && Building(oi.(objects := objects, ops := Pushed(oi.ops, lastLeft, left, sp)), merged, done + 1,
        merged[done].0, sp)
  {
    hide Pushed, Rank, ObjectIndex.Entries;
    if done > 0 { Consecutive(merged, done); }
    var lastLeft, sp := oi.ops.LeftCount(), merged[done].1;
    EntriesPushed(oi, objects, left, sp);
    PushedLeftCount(oi.ops, lastLeft, left, sp);
    assert merged[..done + 1] == merged[..done] + [merged[done]];
  }

  /** Builds the object index of `x`, dense or with a list of the objects in use. */
  method BuildObjectIndex(x: TripleIndex, sparse: bool, chunkLimit: nat) returns (oi: ObjectIndex)
    requires x.Coherent() && chunkLimit > 0
    ensures oi.x == x && oi.objects.Some? == sparse && oi.Coherent()
  {
    hide Pushed, Rank, TripleIndex.Coherent, Elements, Ascending, ObjectIndex.Entries, ObjectIndex.ObjectsAscend;
    CoherentShape(x);
    var merged := SortedEntries(x, chunkLimit);
    EntriesPositive(x, merged);
    var builder := new AdjacencyListBuilder();
    var objects: Option<seq<nat>> := if sparse then Some([]) else None;
    NothingBuilt(ObjectIndex(x, objects, builder.View()), merged);
    var lastObject := 0;
    for i := 0 to |merged|
      invariant builder.Valid() && fresh(builder) && objects.Some? == sparse
      invariant Building(ObjectIndex(x, objects, builder.View()), merged, i, lastObject, builder.lastRight)
    {
      var (object_, sp) := merged[i];
      ghost var before, lastRight := ObjectIndex(x, objects, builder.View()), builder.lastRight;
      ghost var last := lastObject;
      if sparse && object_ > lastObject {
        objects := Some(objects.value + [object_]);
      }
      lastObject := object_;
      var left := if sparse then |objects.value| else object_;
      BuildingStep(before, merged, i, last, lastRight, objects, left);
      builder.Push(left, sp);
    }
    var ops := builder.Finalize();
    assert merged[..|merged|] == merged;
    oi := ObjectIndex(x, objects, ops);
  }

  lemma NothingBuilt(oi: ObjectIndex, merged: seq<Entry>)
    requires oi.x.Shape() && oi.ops == AdjacencyList([], []) && (oi.objects.Some? ==> oi.objects.value == [])
    ensures Building(oi, merged, 0, 0, 0) && forall r :: Building(oi, merged, 0, 0, r)
  {
  }

  lemma Consecutive(es: seq<Entry>, i: nat)
    requires Ascending(EntryOrder(), es) && 0 < i < |es|
    ensures es[i - 1].0 < es[i].0 || (es[i - 1].0 == es[i].0 && es[i - 1].1 < es[i].1)
  {
    assert EntryOrder()(es[i - 1], es[i]) && es[i - 1] != es[i];
  }

  lemma EntriesPositive(x: TripleIndex, es: seq<Entry>)
    requires x.Shape() && Elements(es) == Elements(SpoEntries(x, |x.spo.nums|))
    ensures forall i :: 0 <= i < |es| ==> es[i].0 > 0 && es[i].1 > 0
  {
    forall i | 0 <= i < |es| ensures es[i].0 > 0 && es[i].1 > 0 {
      assert es[i] in Elements(es);
      SpoEntriesAre(x, |x.spo.nums|, es[i]);
    }
  }
}
