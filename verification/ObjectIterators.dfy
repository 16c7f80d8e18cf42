/** Enumerating one layer's triples in object order, with seeking to an object. */
module ObjectIterators {
  import opened Sorting
  import opened Triples
  import opened AdjacencyLists
  import opened TripleIndexes
  import opened SubjectIterators
  import opened ObjectIndexes

  function ObjectFrom(o: nat): Triple -> bool {
    (t: Triple) => t.o >= o
  }

  lemma {:induction false} SplitEntries(oi: ObjectIndex, k: nat)
    requires oi.Shape() && k <= |oi.ops.nums|
    ensures oi.EntriesUpto(k) + oi.EntriesFrom(k) == oi.Entries()
    decreases |oi.ops.nums| - k
  {
    if k < |oi.ops.nums| {
      SplitEntries(oi, k + 1);
      assert oi.EntriesUpto(k) + oi.EntriesFrom(k) == oi.EntriesUpto(k + 1) + oi.EntriesFrom(k + 1);
    }
  }

  lemma TriplesOfAppend(oi: ObjectIndex, a: seq<Entry>, b: seq<Entry>)
    requires oi.x.Shape()
    ensures oi.TriplesOf(a + b) == oi.TriplesOf(a) + oi.TriplesOf(b)
  {
  }

  lemma EntriesFromStart(oi: ObjectIndex)
    requires oi.Shape()
    ensures oi.EntriesFrom(0) == oi.Entries()
  {
    SplitEntries(oi, 0);
    assert oi.EntriesUpto(0) + oi.EntriesFrom(0) == oi.EntriesFrom(0);
  }

  lemma {:induction false} EntriesFromAre(oi: ObjectIndex, k: nat, e: Entry)
    requires oi.Shape() && k <= |oi.ops.nums|
    ensures e in oi.EntriesFrom(k) <==>
      exists i :: k <= i < |oi.ops.nums| && oi.ops.nums[i] != 0 && e == (oi.ObjectAt(i), oi.ops.nums[i])
    decreases |oi.ops.nums| - k
  {
    hide Rank, ObjectIndex.ObjectAt;
    if k < |oi.ops.nums| {
      EntriesFromAre(oi, k + 1, e);
    }
  }

  lemma {:induction false} EntriesUptoAre(oi: ObjectIndex, k: nat, e: Entry)
    requires oi.Shape() && k <= |oi.ops.nums|
    ensures e in oi.EntriesUpto(k) <==>
      exists i :: 0 <= i < k && oi.ops.nums[i] != 0 && e == (oi.ObjectAt(i), oi.ops.nums[i])
  {
    hide Rank, ObjectIndex.ObjectAt;
    if k > 0 {
      EntriesUptoAre(oi, k - 1, e);
    }
  }

  /** Every entry points at a pair of the subject index. */
  lemma EntryInRange(oi: ObjectIndex, k: nat)
    requires oi.Coherent() && k < |oi.ops.nums| && oi.ops.nums[k] != 0
    ensures 1 <= oi.ops.nums[k] <= |oi.x.sp.nums|
  {
    hide TripleIndex.Coherent, Ascending, ObjectIndex.ObjectsAscend;
    var e := (oi.ObjectAt(k), oi.ops.nums[k]);
    EntriesUptoAre(oi, |oi.ops.nums|, e);
    var m := EntryPosition(oi, e);
  }

  lemma EntryObject(oi: ObjectIndex, e: Entry)
    requires oi.Coherent() && e in oi.Entries()
    ensures oi.TripleOf(e).o == e.0
  {
    hide TripleIndex.Coherent, Ascending, ObjectIndex.ObjectsAscend;
    var m := EntryPosition(oi, e);
  }

  /** Cutting at the first position of object `o` or more keeps exactly those objects. */
  lemma CutAtObject(oi: ObjectIndex, k: nat, o: nat)
    requires oi.Coherent() && k <= |oi.ops.nums|
    requires forall i :: 0 <= i < |oi.ops.nums| ==> (oi.ObjectAt(i) >= o <==> k <= i)
    ensures oi.TriplesOf(oi.EntriesFrom(k)) == Filter(ObjectFrom(o), oi.Listing())
  {
    hide TripleIndex.Coherent, Ascending, ObjectIndex.ObjectsAscend, Filter, ObjectIndex.EntriesFrom,
      ObjectIndex.EntriesUpto, Elements, Rank;
    var before, after := oi.EntriesUpto(k), oi.EntriesFrom(k);
    SplitEntries(oi, k);
    forall i | 0 <= i < |before| ensures !ObjectFrom(o)(oi.TriplesOf(before)[i]) {
      EntriesUptoAre(oi, k, before[i]);
      assert before[i] == oi.Entries()[i];
      EntryObject(oi, before[i]);
    }
    forall i | 0 <= i < |after| ensures ObjectFrom(o)(oi.TriplesOf(after)[i]) {
      EntriesFromAre(oi, k, after[i]);
      assert after[i] == oi.Entries()[|before| + i];
      EntryObject(oi, after[i]);
    }
    TriplesOfAppend(oi, before, after);
    FilterDropsAll(ObjectFrom(o), oi.TriplesOf(before));
    FilterKeepsAll(ObjectFrom(o), oi.TriplesOf(after));
    FilterAppend(ObjectFrom(o), oi.TriplesOf(before), oi.TriplesOf(after));
  }

  /** The group a seek chooses: exactly the positions before it hold smaller objects. */
  lemma ObjectCut(oi: ObjectIndex, o: nat, pos: nat)
    requires oi.Coherent() && o > 0
    requires pos == match oi.objects case None => o - 1 case Some(list) => NearestIndexOf(list, o)
    ensures var k := if pos >= oi.ops.LeftCount() then |oi.ops.nums| else oi.ops.OffsetFor(pos + 1);
      forall i :: 0 <= i < |oi.ops.nums| ==> (oi.ObjectAt(i) >= o <==> k <= i)
  {
    hide TripleIndex.Coherent, Ascending, Rank;
    var k := if pos >= oi.ops.LeftCount() then |oi.ops.nums| else oi.ops.OffsetFor(pos + 1);
    forall i | 0 <= i < |oi.ops.nums| ensures oi.ObjectAt(i) >= o <==> k <= i {
      LeftInRange(oi.ops, i);
      if pos < oi.ops.LeftCount() {
        if i < k {
          RankMonotone(oi.ops.bits, i, k);
        } else {
          RankMonotone(oi.ops.bits, k, i);
        }
      }
    }
  }

  /** Resolves an entry to the triple it stands for. */
  method ReadPair(oi: ObjectIndex, pairNum: nat, pos: nat, ghost at: nat) returns (t: Triple)
    requires oi.Shape() && 1 <= pairNum <= |oi.x.sp.nums| && at < |oi.ops.nums| && pos == Rank(oi.ops.bits, at)
    ensures t == oi.TripleOf((oi.ObjectAt(at), pairNum))
  {
    hide Rank;
    LeftInRange(oi.ops, at);
    var (mapped, predicate_) := oi.x.sp.PairAt(pairNum - 1);
    LeftInRange(oi.x.sp, pairNum - 1);
    var subject := if oi.x.subjects.Some? then oi.x.subjects.value[mapped - 1] else mapped;
    var object_ := if oi.objects.Some? then oi.objects.value[pos] else pos + 1;
    t := Triple(subject, predicate_, object_);
  }

  class ObjectIterator {
    const oi: ObjectIndex
    var oPos: nat
    var opsPos: nat
    var peeked: Option<Triple>

    ghost predicate Valid()
      reads this
    {
      && oi.Coherent() && opsPos <= |oi.ops.nums|
      && (opsPos < |oi.ops.nums| ==> oPos == Rank(oi.ops.bits, opsPos))
    }

    ghost function Rest(): seq<Triple>
      requires Valid()
      reads this
    {
      var rest := oi.TriplesOf(oi.EntriesFrom(opsPos));
      if peeked.Some? then [peeked.value] + rest else rest
    }

    constructor (oi: ObjectIndex)
      requires oi.Coherent()
      ensures Valid() && this.oi == oi && peeked == None && Rest() == oi.Listing()
    {
      this.oi := oi;
      oPos, opsPos, peeked := 0, 0, None;
      new;
      EntriesFromStart(oi);
    }

    method Next() returns (r: Option<Triple>)
      requires Valid()
      modifies this
      ensures Valid() && peeked == None
      ensures old(Rest()) == [] ==> r == None && Rest() == []
      ensures old(Rest()) != [] ==> r == Some(old(Rest())[0]) && Rest() == old(Rest())[1..]
    {
      hide TripleIndex.Coherent, TripleIndex.Shape, Ascending, Elements, ObjectIndex.ObjectsAscend,
        ObjectIndex.ObjectAt, ObjectIndex.TripleOf, Rank, ObjectIndex.Entries;
      if peeked.Some? {
        r := peeked;
        peeked := None;
        return;
      }
      while true
        invariant Valid() && peeked == None && Rest() == old(Rest())
        decreases |oi.ops.nums| - opsPos
      {
        if opsPos >= oi.ops.RightCount() {
          return None;
        }
        var pos, at := oPos, opsPos;
        var bit := oi.ops.BitAt(opsPos);
        var pairNum := oi.ops.NumAt(opsPos);
        RankNext(oi.ops.bits, opsPos);
        LeftInRange(oi.ops, opsPos);
        if bit {
          oPos := oPos + 1;
        }
        opsPos := opsPos + 1;
        if pairNum == 0 {
          continue;
        }
        EntryInRange(oi, at);
        var t := ReadPair(oi, pairNum, pos, at);
        r := Some(t);
        TriplesOfAppend(oi, [(oi.ObjectAt(at), pairNum)], oi.EntriesFrom(opsPos));
        assert old(Rest()) == [r.value] + Rest();
        return;
      }
    }

    method Peek() returns (r: Option<Triple>)
      requires Valid()
      modifies this
      ensures Valid() && Rest() == old(Rest())
      ensures r == if Rest() == [] then None else Some(Rest()[0])
    {
      hide ObjectIndex.Coherent;
      peeked := Next();
      r := peeked;
    }

    /** Afterwards exactly the triples with object `o` or greater are left. */
    method SeekObject(o: nat)
      requires Valid()
      modifies this
      ensures Valid() && peeked == None && Rest() == Filter(ObjectFrom(o), oi.Listing())
    {
      hide TripleIndex.Coherent, Ascending, Elements, ObjectIndex.ObjectsAscend, Rank, Filter, ObjectIndex.EntriesFrom;
      peeked := None;
      if o == 0 {
        oPos, opsPos := 0, 0;
        CutAtObject(oi, 0, o);
        return;
      }
      oPos := if oi.objects.Some? then NearestIndexOf(oi.objects.value, o) else o - 1;
      ObjectCut(oi, o, oPos);
      if oPos >= oi.ops.LeftCount() {
        opsPos := oi.ops.RightCount();
      } else {
        opsPos := oi.ops.OffsetFor(oPos + 1);
      }
      CutAtObject(oi, opsPos, o);
    }
  }
}
