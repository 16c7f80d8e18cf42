/** Queries for the triples whose object is a value in a half-open range, forwards and backwards:
    each layer's dictionary gives the ids of a segment of its sorted values. */
module ValueRanges {
  import opened Sorting
  import opened Triples
  import opened Dictionaries
  import opened InternalLayers
  import opened IdTranslation
  import opened StringTriples
  import opened Remapping
  import opened Numberings
  import opened LayerQueries
  import MergedIterators

  /* ---- lookups in a typed dictionary, by the library's behaviour ---- */

  /** Where an entry is, or the closest lower entry of its datatype. Positions count from one. */
  datatype IdLookup = Found(i: nat) | Closest(i: nat) | NotFound

  predicate Less(a: Entry, b: Entry) {
    EntryLe(a, b) && a != b
  }

  /** The last position holding an entry of the same datatype not above `e`; 0 if there is none. */
  function LastBelow(values: seq<Entry>, e: Entry): (i: nat)
    requires e.Value? && forall k :: 0 <= k < |values| ==> values[k].Value?
    ensures i <= |values| && (i > 0 ==> values[i - 1].kind == e.kind && EntryLe(values[i - 1], e))
    ensures forall k :: i <= k < |values| ==> !(values[k].kind == e.kind && EntryLe(values[k], e))
  {
    if values == [] then 0
    else if values[|values| - 1].kind == e.kind && EntryLe(values[|values| - 1], e) then |values|
    else LastBelow(values[..|values| - 1], e)
  }

  function IdEntry(values: seq<Entry>, e: Entry): IdLookup
    requires e.Value? && forall k :: 0 <= k < |values| ==> values[k].Value?
  {
    match Find(values, e)
    case Some(i) => Found(i)
    case None => var i := LastBelow(values, e); if i == 0 then NotFound else Closest(i)
  }

  /** How many values come before those of a datatype; none if it is not there. */
  function TypeSegment(values: seq<Entry>, kind: nat): (r: Option<nat>)
    requires forall k :: 0 <= k < |values| ==> values[k].Value?
    ensures r.None? ==> forall k :: 0 <= k < |values| ==> values[k].kind != kind
    ensures r.Some? ==> r.value < |values| && values[r.value].kind == kind && forall k :: 0 <= k < r.value ==>
      values[k].kind != kind
  {
    if values == [] then None
    else match TypeSegment(values[..|values| - 1], kind)
      case Some(i) => Some(i)
      case None => if values[|values| - 1].kind == kind then Some(|values| - 1) else None
  }

  /** Where a range that begins or ends at `e` is cut. */
  function CutAt(values: seq<Entry>, e: Entry, typeOffset: nat): nat
    requires e.Value? && forall k :: 0 <= k < |values| ==> values[k].Value?
  {
    match IdEntry(values, e)
    case Found(i) => i
    case Closest(i) => i + 1
    case NotFound => typeOffset + 1
  }

  ghost predicate LowerBound(values: seq<Entry>, e: Entry, cut: nat) {
    1 <= cut <= |values| + 1 && forall i :: 0 <= i < |values| ==> (i < cut - 1 <==> Less(values[i], e))
  }

  lemma FoundIsLowerBound(values: seq<Entry>, e: Entry, k: nat)
    requires Ascending(EntryOrdering(), values) && 1 <= k <= |values| && values[k - 1] == e
    ensures LowerBound(values, e, k)
  {
    hide TotalOrder, Ascending, EntryLe;
    forall i | 0 <= i < |values| ensures i < k - 1 <==> Less(values[i], e) {
      InOrder(values, i, k - 1);
      EntryTotal(values[i], e);
    }
  }

  lemma ClosestIsLowerBound(values: seq<Entry>, e: Entry, k: nat)
    requires Ascending(EntryOrdering(), values) && e.Value? && (forall k :: 0 <= k < |values| ==> values[k].Value?) &&
      e !in values
    requires 1 <= k <= |values| && values[k - 1].kind == e.kind && EntryLe(values[k - 1], e)
    requires forall m :: k <= m < |values| ==> !(values[m].kind == e.kind && EntryLe(values[m], e))
    ensures LowerBound(values, e, k + 1)
  {
    hide TotalOrder, Ascending;
    assert values[k - 1] in values;
    forall i | 0 <= i < |values| ensures i < k <==> Less(values[i], e) {
      LessTrans(values, i, k - 1, e);
      KindsAscend(values, i, k - 1);
    }
  }

  lemma NotFoundIsLowerBound(values: seq<Entry>, e: Entry, first: nat)
    requires Ascending(EntryOrdering(), values) && e.Value? && (forall k :: 0 <= k < |values| ==> values[k].Value?)
    requires first < |values| && values[first].kind == e.kind && forall k :: 0 <= k < first ==> values[k].kind != e.kind
    requires forall m :: 0 <= m < |values| ==> !(values[m].kind == e.kind && EntryLe(values[m], e))
    ensures LowerBound(values, e, first + 1)
  {
    hide TotalOrder, Ascending;
    forall i | 0 <= i < |values| ensures i < first <==> Less(values[i], e) {
      KindsAscend(values, i, first);
    }
  }

  /** The cut is the lower bound: exactly the values below `e` come before it. */
  lemma CutIsLowerBound(values: seq<Entry>, e: Entry)
    requires Ascending(EntryOrdering(), values) && e.Value? && forall k :: 0 <= k < |values| ==> values[k].Value?
    requires TypeSegment(values, e.kind).Some?
    ensures LowerBound(values, e, CutAt(values, e, TypeSegment(values, e.kind).value))
  {
    hide TotalOrder, Ascending, EntryLe, LowerBound;
    match IdEntry(values, e) {
      case Found(k) => FoundIsLowerBound(values, e, k);
      case Closest(k) => ClosestIsLowerBound(values, e, k);
      case NotFound => NotFoundIsLowerBound(values, e, TypeSegment(values, e.kind).value);
    }
  }

  lemma EntryTotal(a: Entry, b: Entry)
    ensures EntryLe(a, b) || EntryLe(b, a)
    ensures EntryLe(a, b) && EntryLe(b, a) ==> a == b
    ensures EntryLe(a, a)
  {
    StrOrder(a.str, b.str, a.str);
    StrOrder(b.str, a.str, b.str);
  }

  lemma InOrder(values: seq<Entry>, i: nat, j: nat)
    requires Ascending(EntryOrdering(), values) && i < |values| && j < |values|
    ensures i < j ==> Less(values[i], values[j])
    ensures j < i ==> Less(values[j], values[i])
  {
    hide TotalOrder;
    assert i < j ==> EntryOrdering()(values[i], values[j]);
    assert j < i ==> EntryOrdering()(values[j], values[i]);
    OrderingIs(values[i], values[j]);
  }

  lemma OrderingIs(a: Entry, b: Entry)
    ensures EntryOrdering()(a, b) == EntryLe(a, b) && EntryOrdering()(b, a) == EntryLe(b, a)
  {
    hide TotalOrder;
  }

  lemma KindsAscend(values: seq<Entry>, i: nat, j: nat)
    requires Ascending(EntryOrdering(), values) && i < |values| && j < |values| && values[i].Value? && values[j].Value?
    ensures i <= j ==> values[i].kind <= values[j].kind
    ensures j <= i ==> values[j].kind <= values[i].kind
  {
    hide TotalOrder;
    InOrder(values, i, j);
  }

  lemma LessTrans(values: seq<Entry>, i: nat, j: nat, e: Entry)
    requires Ascending(EntryOrdering(), values) && i < |values| && j < |values|
    ensures i <= j && EntryLe(values[j], e) && values[j] != e ==> Less(values[i], e)
  {
    hide TotalOrder;
    InOrder(values, i, j);
    StrOrder(values[i].str, values[j].str, e.str);
    EntryTotal(values[i], values[j]);
    EntryTotal(values[j], e);
    EntryTotal(values[i], e);
  }

  /* ---- one layer's segment ---- */

  /** `e` is a value of the bounds' datatype in the half-open range. */
  predicate InRange(low: Entry, high: Entry, e: Entry) {
    low.Value? && high.Value? && e.Value? && low.kind == high.kind == e.kind && !Less(e, low) && Less(e, high)
  }

  /** The part of a layer's values that lies in the range. */
  function Segment(values: seq<Entry>, low: Entry, high: Entry): (r: (nat, nat))
    requires low.Value? && high.Value? && forall k :: 0 <= k < |values| ==> values[k].Value?
    requires TypeSegment(values, low.kind).Some?
  {
    (CutAt(values, low, TypeSegment(values, low.kind).value), CutAt(values, high, TypeSegment(values, low.kind).value))
  }

  lemma SegmentIs(values: seq<Entry>, low: Entry, high: Entry)
    requires low.Value? && high.Value? && low.kind == high.kind && Ascending(EntryOrdering(), values) &&
      forall k :: 0 <= k < |values| ==> values[k].Value?
    ensures TypeSegment(values, low.kind).None? ==> forall i :: 0 <= i < |values| ==> !InRange(low, high, values[i])
    ensures TypeSegment(values, low.kind).Some? ==> var (start, end) := Segment(values, low, high);
      1 <= start <= |values| + 1 && 1 <= end <= |values| + 1
    ensures TypeSegment(values, low.kind).Some? ==> var (start, end) := Segment(values, low, high);
      forall i :: 0 <= i < |values| ==> (InRange(low, high, values[i]) <==> start - 1 <= i < end - 1)
  {
    hide Ascending, TotalOrder, CutAt, EntryLe;
    if TypeSegment(values, low.kind).Some? {
      CutIsLowerBound(values, low);
      CutIsLowerBound(values, high);
      forall i | 0 <= i < |values| && !Less(values[i], low) &&
        Less(values[i], high) ensures values[i].kind == low.kind {
        Between(low, high, values[i]);
      }
    }
  }

  lemma Between(low: Entry, high: Entry, e: Entry)
    requires low.Value? && high.Value? && e.Value? && low.kind == high.kind && !Less(e, low) && Less(e, high)
    ensures e.kind == low.kind
  {
    EntryTotal(low, e);
  }

  /** The place, counted from zero, of the `k`-th value of a segment read forwards or backwards. */
  function Place(start: nat, end: nat, reverse: bool, k: nat): (p: nat)
    requires 1 <= start && k < end - start
    ensures start - 1 <= p < end - 1
  {
    if reverse then end - 2 - k else start - 1 + k
  }

  /** The ids of the values `start..end`, in the order of the values or backwards. */
  method SegmentIds(d: Dictionary, offset: nat, start: nat, end: nat, reverse: bool) returns (ids: seq<nat>)
    requires d.Valid() && 1 <= start <= |d.values| + 1 && 1 <= end <= |d.values| + 1
    ensures Stretch(ValueRun(d, offset), start, end, reverse, ids)
  {
    hide Dictionary.Valid;
    ids := [];
    if reverse {
      var pos := end;
      while pos > start
        invariant start <= end ==> start <= pos <= end
        invariant end < start ==> pos == end
        invariant |ids| == end - pos && forall k :: 0 <= k < |ids| ==> ids[k] == ValueRun(d, offset)[end - 2 - k].1
      {
        pos := pos - 1;
        ids := ids + [d.nodeValueIds.InnerToOuter(pos + |d.nodes|) + offset];
      }
    } else {
      var pos := start;
      while pos < end
        invariant start <= end ==> start <= pos <= end
        invariant end < start ==> pos == start
        invariant |ids| == pos - start && forall k :: 0 <= k < |ids| ==> ids[k] == ValueRun(d, offset)[start - 1 + k].1
      {
        ids := ids + [d.nodeValueIds.InnerToOuter(pos + |d.nodes|) + offset];
        pos := pos + 1;
      }
    }
  }

  /** The ids of a layer's own entries that lie in the range. */
  ghost predicate RangeIds(own: seq<Entry>, offset: nat, low: Entry, high: Entry, ids: seq<nat>) {
    && Distinct(ids)
    && (forall k :: 0 <= k < |ids| ==> offset < ids[k] <= offset + |own|)
    && (forall i :: 0 <= i < |own| ==> (InRange(low, high, own[i]) <==> offset + i + 1 in ids))
  }

  /** `ids` are the ids of a stretch of the run. */
  ghost predicate Stretch(run: seq<(Entry, nat)>, start: nat, end: nat, reverse: bool, ids: seq<nat>) {
    && 1 <= start <= |run| + 1 && 1 <= end <= |run| + 1
    && |ids| == (if end < start then 0 else end - start)
    && forall k :: 0 <= k < |ids| ==> ids[k] == run[Place(start, end, reverse, k)].1
  }

  lemma StretchDistinct(run: seq<(Entry, nat)>, start: nat, end: nat, reverse: bool, ids: seq<nat>)
    requires Stretch(run, start, end, reverse, ids) && IdsDistinct(run)
    ensures Distinct(ids)
  {
    forall i, j | 0 <= i < j < |ids| ensures ids[i] != ids[j] {
      var a, b := Place(start, end, reverse, i), Place(start, end, reverse, j);
      assert run[a].1 != run[b].1;
    }
  }

  lemma StretchMember(run: seq<(Entry, nat)>, start: nat, end: nat, reverse: bool, ids: seq<nat>, m: nat)
    requires Stretch(run, start, end, reverse, ids) && IdsDistinct(run) && m < |run|
    ensures run[m].1 in ids <==> start - 1 <= m < end - 1
  {
    if start - 1 <= m < end - 1 {
      var k := if reverse then end - 2 - m else m - (start - 1);
      assert Place(start, end, reverse, k) == m && ids[k] == run[m].1;
    }
    if run[m].1 in ids {
      var k :| 0 <= k < |ids| && ids[k] == run[m].1;
      assert run[Place(start, end, reverse, k)].1 == run[m].1;
    }
  }

  lemma StretchIds(run: seq<(Entry, nat)>, start: nat, end: nat, reverse: bool, ids: seq<nat>, id: nat)
    requires Stretch(run, start, end, reverse, ids) && id in ids
    ensures exists m :: 0 <= m < |run| && run[m].1 == id
  {
    var k :| 0 <= k < |ids| && ids[k] == id;
    assert run[Place(start, end, reverse, k)].1 == id;
  }

  lemma SegmentIsRange(d: Dictionary, offset: nat, low: Entry, high: Entry, start: nat, end: nat, reverse: bool,
      ids: seq<nat>)
    requires d.Valid() && |d.Outer()| == d.Count() && Stretch(ValueRun(d, offset), start, end, reverse, ids)
    requires forall i :: 0 <= i < |d.values| ==> (InRange(low, high, d.values[i]) <==> start - 1 <= i < end - 1)
    ensures RangeIds(d.Outer(), offset, low, high, ids)
  {
    hide Dictionary.Valid, Dictionary.Outer, InRange, HasId, Stretch, IdsDistinct, Distinct;
    ValueRunOf(d, offset);
    var run, own := ValueRun(d, offset), d.Outer();
    StretchDistinct(run, start, end, reverse, ids);
    forall k | 0 <= k < |ids| ensures offset < ids[k] <= offset + |own| {
      StretchIds(run, start, end, reverse, ids, ids[k]);
    }
    forall i | 0 <= i < |own| ensures InRange(low, high, own[i]) <==> offset + i + 1 in ids {
      SegmentMember(own, d.values, run, offset, low, high, start, end, reverse, ids, i);
    }
  }

  lemma SegmentMember(own: seq<Entry>, values: seq<Entry>, run: seq<(Entry, nat)>, offset: nat, low: Entry,
      high: Entry, start: nat, end: nat, reverse: bool, ids: seq<nat>, i: nat)
    requires RunOf(own, IsValue, offset, run) && Stretch(run, start, end, reverse, ids) && i < |own|
    requires |run| == |values| && forall k :: 0 <= k < |run| ==> run[k].0 == values[k]
    requires forall i :: 0 <= i < |values| ==> (InRange(low, high, values[i]) <==> start - 1 <= i < end - 1)
    ensures InRange(low, high, own[i]) <==> offset + i + 1 in ids
  {
    hide InRange, HasId, Stretch, IdsDistinct;
    if InRange(low, high, own[i]) {
      RangeIsValue(low, high, own[i]);
      RunHas(own, offset, run, i);
      var m :| 0 <= m < |run| && run[m].1 == offset + i + 1;
      StretchMember(run, start, end, reverse, ids, m);
    }
    if offset + i + 1 in ids {
      StretchIds(run, start, end, reverse, ids, offset + i + 1);
      var m :| 0 <= m < |run| && run[m].1 == offset + i + 1;
      StretchMember(run, start, end, reverse, ids, m);
    }
  }

  lemma RangeIsValue(low: Entry, high: Entry, e: Entry)
    requires InRange(low, high, e)
    ensures IsValue(e)
  {
  }

  lemma RunHas(own: seq<Entry>, offset: nat, run: seq<(Entry, nat)>, i: nat)
    requires RunOf(own, IsValue, offset, run) && i < |own| && IsValue(own[i])
    ensures exists k :: 0 <= k < |run| && run[k].1 == offset + i + 1
  {
    assert HasId(run, offset + i + 1);
  }

  /** The entries of the ids come in their order, or in the opposite order. */
  ghost predicate InValueOrder(table: seq<Entry>, reverse: bool, ids: seq<nat>) {
    && (forall k :: 0 <= k < |ids| ==> 1 <= ids[k] <= |table|)
    && forall i, j :: 0 <= i < j < |ids| ==>
      if reverse then Less(table[ids[j] - 1], table[ids[i] - 1]) else Less(table[ids[i] - 1], table[ids[j] - 1])
  }

  lemma StretchInOrder(d: Dictionary, below: seq<Entry>, start: nat, end: nat, reverse: bool, ids: seq<nat>)
    requires d.Valid() && |d.Outer()| == d.Count() && Stretch(ValueRun(d, |below|), start, end, reverse, ids)
    ensures InValueOrder(below + d.Outer(), reverse, ids)
  {
    hide Dictionary.Outer, IdsDistinct, HasId, Ascending, TotalOrder, Less;
    ValueRunOf(d, |below|);
    var run, own, table := ValueRun(d, |below|), d.Outer(), below + d.Outer();
    forall k | 0 <= k < |ids| ensures 1 <= ids[k] <= |table| &&
      table[ids[k] - 1] == d.values[Place(start, end, reverse, k)] {
      var p := Place(start, end, reverse, k);
      assert |below| < run[p].1 <= |below| + |own| && own[run[p].1 - |below| - 1] == run[p].0;
    }
    forall i, j | 0 <= i < j < |ids| ensures if reverse then Less(table[ids[j] - 1], table[ids[i] - 1])
      else Less(table[ids[i] - 1], table[ids[j] - 1]) {
      InOrder(d.values, Place(start, end, reverse, i), Place(start, end, reverse, j));
    }
  }

  /* ---- the whole stack ---- */

  ghost predicate Listed(table: seq<Entry>, low: Entry, high: Entry, ids: seq<nat>) {
    RangeIds(table, 0, low, high, ids)
  }

  lemma ListedMore(table: seq<Entry>, own: seq<Entry>, low: Entry, high: Entry, ids: seq<nat>, more: seq<nat>)
    requires Listed(table, low, high, ids) && RangeIds(own, |table|, low, high, more)
    ensures Listed(table + own, low, high, ids + more)
  {
    hide InRange;
    var all := ids + more;
    forall i | 0 <= i < |table + own| ensures InRange(low, high, (table + own)[i]) <==> i + 1 in all {
      if i < |table| {
        assert InRange(low, high, table[i]) <==> 0 + i + 1 in ids;
        assert i + 1 !in more;
      } else {
        assert InRange(low, high, own[i - |table|]) <==> |table| + (i - |table|) + 1 in more;
        assert i + 1 !in ids;
      }
      assert i + 1 in all <==> i + 1 in ids || i + 1 in more;
    }
  }

  lemma NothingInRange(d: Dictionary, offset: nat, low: Entry, high: Entry)
    requires d.Valid() && |d.Outer()| == d.Count() && forall i :: 0 <= i < |d.values| ==>
      !InRange(low, high, d.values[i])
    ensures RangeIds(d.Outer(), offset, low, high, [])
  {
    hide InRange, Dictionary.Valid, Dictionary.Outer;
    assert Stretch(ValueRun(d, offset), 1, 1, false, []);
    SegmentIsRange(d, offset, low, high, 1, 1, false, []);
  }

  /** The layer that gives out an id, counted from the lowest. */
  ghost function Level(layer: InternalLayer, id: nat): nat
    decreases layer.Size()
  {
    match layer.ImmediateParent()
    case None => 0
    case Some(p) => if id <= NodeAndValueCount(p) then Level(p, id) else Height(p)
  }

  /** Values of lower layers come first, those of one layer in their order or in the opposite one. */
  ghost predicate ComesFirst(layer: InternalLayer, reverse: bool, a: nat, b: nat)
    requires DictsValid(layer)
  {
    && 1 <= a <= |Table(layer)| && 1 <= b <= |Table(layer)|
    && (Level(layer, a) < Level(layer, b) || (Level(layer, a) == Level(layer, b) &&
      if reverse then Less(Table(layer)[b - 1], Table(layer)[a - 1])
      else Less(Table(layer)[a - 1], Table(layer)[b - 1])))
  }

  ghost predicate RangeOrder(layer: InternalLayer, reverse: bool, ids: seq<nat>)
    requires DictsValid(layer)
  {
    forall i, j :: 0 <= i < j < |ids| ==> ComesFirst(layer, reverse, ids[i], ids[j])
  }

  /** The same for the dictionaries of the lowest layers. */
  ghost function LevelIn(ds: seq<Dictionary>, id: nat): nat
    requires AllValid(ds)
  {
    if ds == [] then 0
    else if id <= |Outers(ds[..|ds| - 1])| then LevelIn(ds[..|ds| - 1], id)
    else |ds| - 1
  }

  ghost predicate FirstIn(ds: seq<Dictionary>, reverse: bool, a: nat, b: nat)
    requires AllValid(ds)
  {
    && 1 <= a <= |Outers(ds)| && 1 <= b <= |Outers(ds)|
    && (LevelIn(ds, a) < LevelIn(ds, b) || (LevelIn(ds, a) == LevelIn(ds, b) &&
      if reverse then Less(Outers(ds)[b - 1], Outers(ds)[a - 1]) else Less(Outers(ds)[a - 1], Outers(ds)[b - 1])))
  }

  ghost predicate OrderIn(ds: seq<Dictionary>, reverse: bool, ids: seq<nat>)
    requires AllValid(ds)
  {
    && (forall k :: 0 <= k < |ids| ==> 1 <= ids[k] <= |Outers(ds)|)
    && forall i, j :: 0 <= i < j < |ids| ==> FirstIn(ds, reverse, ids[i], ids[j])
  }

  lemma {:induction false} LevelBelow(ds: seq<Dictionary>, id: nat)
    requires AllValid(ds) && 1 <= id <= |Outers(ds)|
    ensures LevelIn(ds, id) < |ds|
  {
    hide Dictionary.Valid, Dictionary.Outer;
    if id <= |Outers(ds[..|ds| - 1])| {
      LevelBelow(ds[..|ds| - 1], id);
    }
  }

  lemma LevelNext(ds: seq<Dictionary>, ix: nat, id: nat)
    requires AllValid(ds) && ix < |ds| && AllValid(ds[..ix]) && AllValid(ds[..ix + 1])
    ensures LevelIn(ds[..ix + 1], id) == if id <= |Outers(ds[..ix])| then LevelIn(ds[..ix], id) else ix
  {
    assert ds[..ix + 1][..ix] == ds[..ix];
  }

  /** Two ids of lower layers keep their order. */
  lemma FirstStill(ds: seq<Dictionary>, ix: nat, reverse: bool, a: nat, b: nat)
    requires AllValid(ds) && ix < |ds| && AllValid(ds[..ix]) && AllValid(ds[..ix + 1])
    requires FirstIn(ds[..ix], reverse, a, b)
    ensures FirstIn(ds[..ix + 1], reverse, a, b)
  {
    hide AllValid, Outers, LevelIn, Less, Dictionary.Valid;
    OutersNext(ds, ix);
    LevelNext(ds, ix, a);
    LevelNext(ds, ix, b);
  }

  /** They come before the ids of the next layer, which come in the order of the values. */
  lemma FirstNext(ds: seq<Dictionary>, ix: nat, reverse: bool, a: nat, b: nat)
    requires AllValid(ds) && ix < |ds| && AllValid(ds[..ix]) && AllValid(ds[..ix + 1])
    requires 1 <= a <= |Outers(ds[..ix + 1])| && |Outers(ds[..ix])| < b <= |Outers(ds[..ix + 1])|
    requires |Outers(ds[..ix])| < a ==> if reverse
      then Less(Outers(ds[..ix + 1])[b - 1], Outers(ds[..ix + 1])[a - 1])
      else Less(Outers(ds[..ix + 1])[a - 1], Outers(ds[..ix + 1])[b - 1])
    ensures FirstIn(ds[..ix + 1], reverse, a, b)
  {
    hide AllValid, Outers, LevelIn, Less, Dictionary.Valid;
    LevelNext(ds, ix, a);
    LevelNext(ds, ix, b);
    if a <= |Outers(ds[..ix])| {
      LevelBelow(ds[..ix], a);
    }
  }

  /** One more layer's segment. */
  lemma OrderMore(ds: seq<Dictionary>, ix: nat, reverse: bool, ids: seq<nat>, segment: seq<nat>)
    requires AllValid(ds) && ix < |ds| && AllValid(ds[..ix]) && AllValid(ds[..ix + 1])
    requires OrderIn(ds[..ix], reverse, ids) && InValueOrder(Outers(ds[..ix + 1]), reverse, segment)
    requires forall k :: 0 <= k < |segment| ==> |Outers(ds[..ix])| < segment[k]
    ensures OrderIn(ds[..ix + 1], reverse, ids + segment)
  {
    hide AllValid, Outers, FirstIn, Less, Dictionary.Valid, OrderIn, InValueOrder, LevelIn;
    OutersNext(ds, ix);
    var large, all := ds[..ix + 1], ids + segment;
    OrderWithin(ds[..ix], reverse, ids);
    ValuesWithin(Outers(large), reverse, segment);
    assert forall k :: 0 <= k < |all| ==> 1 <= all[k] <= |Outers(large)|;
    forall i, j | 0 <= i < j < |all| ensures FirstIn(large, reverse, all[i], all[j]) {
      if j < |ids| {
        OrderAt(ds[..ix], reverse, ids, i, j);
        FirstStill(ds, ix, reverse, ids[i], ids[j]);
      } else {
        assert |Outers(ds[..ix])| < segment[j - |ids|] <= |Outers(large)|;
        if |ids| <= i {
          ValuesAt(Outers(large), reverse, segment, i - |ids|, j - |ids|);
        }
        FirstNext(ds, ix, reverse, all[i], segment[j - |ids|]);
      }
    }
    AllOrdered(large, reverse, all);
  }

  lemma OrderWithin(ds: seq<Dictionary>, reverse: bool, ids: seq<nat>)
    requires AllValid(ds) && OrderIn(ds, reverse, ids)
    ensures forall k :: 0 <= k < |ids| ==> 1 <= ids[k] <= |Outers(ds)|
  {
  }

  lemma OrderAt(ds: seq<Dictionary>, reverse: bool, ids: seq<nat>, i: nat, j: nat)
    requires AllValid(ds) && OrderIn(ds, reverse, ids) && i < j < |ids|
    ensures FirstIn(ds, reverse, ids[i], ids[j])
  {
  }

  lemma AllOrdered(ds: seq<Dictionary>, reverse: bool, ids: seq<nat>)
    requires AllValid(ds) && forall k :: 0 <= k < |ids| ==> 1 <= ids[k] <= |Outers(ds)|
    requires forall i, j :: 0 <= i < j < |ids| ==> FirstIn(ds, reverse, ids[i], ids[j])
    ensures OrderIn(ds, reverse, ids)
  {
    hide FirstIn;
  }

  lemma ValuesWithin(table: seq<Entry>, reverse: bool, ids: seq<nat>)
    requires InValueOrder(table, reverse, ids)
    ensures forall k :: 0 <= k < |ids| ==> 1 <= ids[k] <= |table|
  {
  }

  lemma ValuesAt(table: seq<Entry>, reverse: bool, ids: seq<nat>, i: nat, j: nat)
    requires InValueOrder(table, reverse, ids) && i < j < |ids|
    ensures 1 <= ids[i] <= |table| && 1 <= ids[j] <= |table|
    ensures if reverse then Less(table[ids[j] - 1], table[ids[i] - 1]) else Less(table[ids[i] - 1], table[ids[j] - 1])
  {
  }

  lemma {:induction false} LevelIs(layer: InternalLayer, id: nat)
    requires DictsValid(layer)
    ensures AllValid(StackDicts(layer)) && Outers(StackDicts(layer)) == Table(layer)
    ensures LevelIn(StackDicts(layer), id) == Level(layer, id)
    decreases layer.Size()
  {
    hide Dictionary.Valid, Dictionary.Outer, Dictionary.OuterPredicates, AllValid, Outers, LevelIn, Table,
      PredicateTable, DictsValid;
    TableStep(layer);
    var p := layer.ImmediateParent();
    var below := if p.Some? then StackDicts(p.value) else [];
    if p.Some? {
      LevelIs(p.value, id);
    } else {
      NoLevels(id);
    }
    AddedDict(below, layer.Dict(), id);
  }

  lemma NoLevels(id: nat)
    ensures AllValid([]) && Outers([]) == [] && LevelIn([], id) == 0
  {
  }

  lemma AddedDict(ds: seq<Dictionary>, d: Dictionary, id: nat)
    requires AllValid(ds) && d.Valid()
    ensures AllValid(ds + [d]) && Outers(ds + [d]) == Outers(ds) + d.Outer()
    ensures LevelIn(ds + [d], id) == if id <= |Outers(ds)| then LevelIn(ds, id) else |ds|
  {
    hide Dictionary.Valid, Dictionary.Outer;
    assert (ds + [d])[..|ds|] == ds;
  }

  /** The ids of level `k` are those beyond the entries of the `k` layers below it, up to the entries
      of its own layer. */
  lemma {:induction false} LevelWithin(layer: InternalLayer, id: nat)
    requires DictsValid(layer) && 1 <= id <= |Table(layer)|
    ensures AllValid(StackDicts(layer)) && Level(layer, id) < Height(layer)
    ensures AllValid(StackDicts(layer)[..Level(layer, id)]) && AllValid(StackDicts(layer)[..Level(layer, id) + 1])
    ensures |Outers(StackDicts(layer)[..Level(layer, id)])| < id <= |Outers(StackDicts(layer)[..Level(layer, id) + 1])|
    decreases layer.Size()
  {
    hide Dictionary.Valid, Dictionary.Outer, Dictionary.OuterPredicates, AllValid, Outers, LevelIn, Table,
      PredicateTable, DictsValid;
    TableStep(layer);
    LevelIs(layer, id);
    var p, ds := layer.ImmediateParent(), StackDicts(layer);
    assert ds[..|ds|] == ds;
    if p.None? {
      NoLevels(id);
      assert ds[..0] == [];
    } else {
      var below := StackDicts(p.value);
      LevelIs(p.value, id);
      assert ds[..|below|] == below;
      if id <= NodeAndValueCount(p.value) {
        LevelWithin(p.value, id);
        var k := Level(p.value, id);
        assert ds[..k] == below[..k] && ds[..k + 1] == below[..k + 1];
      }
    }
  }

  lemma RangeOrdered(layer: InternalLayer, reverse: bool, ids: seq<nat>)
    requires DictsValid(layer) && AllValid(StackDicts(layer)) && OrderIn(StackDicts(layer), reverse, ids)
    ensures RangeOrder(layer, reverse, ids)
  {
    hide DictsValid, AllValid, Outers, LevelIn, Level, Table, StackDicts, Less;
    forall i, j | 0 <= i < j < |ids| ensures ComesFirst(layer, reverse, ids[i], ids[j]) {
      assert FirstIn(StackDicts(layer), reverse, ids[i], ids[j]);
      LevelIs(layer, ids[i]);
      LevelIs(layer, ids[j]);
    }
  }

  lemma SegmentAbove(own: seq<Entry>, offset: nat, low: Entry, high: Entry, ids: seq<nat>)
    requires RangeIds(own, offset, low, high, ids)
    ensures forall k :: 0 <= k < |ids| ==> offset < ids[k]
  {
  }

  /** The ids of the values in the range, each once, layer by layer from the lowest; within a layer
      in the order of the values, or backwards. */
  method ObjectIds(layer: InternalLayer, low: Entry, high: Entry, reverse: bool) returns (ids: seq<nat>)
    requires DictsValid(layer) && low.Value? && high.Value? && low.kind == high.kind
    ensures Listed(Table(layer), low, high, ids)
    ensures RangeOrder(layer, reverse, ids)
  {
    hide InValueOrder, OrderIn, RangeOrder, StackDicts, Dictionary.Valid, Dictionary.Outer,
      Dictionary.OuterPredicates, AllValid, Outers, OuterPredicatesOf, Table, PredicateTable, DictsValid, Listed,
      RangeIds, Ascending, TotalOrder, InRange, CutAt, TypeSegment, Segment, Stretch;
    var ds := ImmediateDicts(layer);
    ids := [];
    var parentCount := 0;
    NoOuters();
    assert ds[..0] == [];
    assert Listed([], low, high, []) by { NothingListed(low, high); }
    AllValidUpto(ds, 0);
    assert OrderIn(ds[..0], reverse, []) by { NoOrder(ds, reverse); }
    for ix := 0 to |ds|
      invariant AllValid(ds[..ix]) && parentCount == |Outers(ds[..ix])| && Listed(Outers(ds[..ix]), low, high, ids)
      invariant OrderIn(ds[..ix], reverse, ids)
    {
      OutersNext(ds, ix);
      AllValidUpto(ds, ix + 1);
      var d := ds[ix];
      SortedValues(d);
      SegmentIs(d.values, low, high);
      var segment: seq<nat> := [];
      if TypeSegment(d.values, low.kind).Some? {
        var (start, end) := Segment(d.values, low, high);
        segment := SegmentIds(d, parentCount, start, end, reverse);
        SegmentIsRange(d, parentCount, low, high, start, end, reverse, segment);
        StretchInOrder(d, Outers(ds[..ix]), start, end, reverse, segment);
      } else {
        NothingInRange(d, parentCount, low, high);
        NothingInOrder(Outers(ds[..ix]) + d.Outer(), reverse);
      }
      SegmentAbove(d.Outer(), parentCount, low, high, segment);
      OrderMore(ds, ix, reverse, ids, segment);
      ListedMore(Outers(ds[..ix]), d.Outer(), low, high, ids, segment);
      ids := ids + segment;
      parentCount := parentCount + (|d.nodes| + |d.values|);
    }
    assert ds[..|ds|] == ds;
    RangeOrdered(layer, reverse, ids);
  }

  lemma NoOrder(ds: seq<Dictionary>, reverse: bool)
    requires AllValid(ds[..0])
    ensures OrderIn(ds[..0], reverse, [])
  {
  }

  lemma AllValidUpto(ds: seq<Dictionary>, i: nat)
    requires AllValid(ds) && i <= |ds|
    ensures AllValid(ds[..i])
  {
  }

  lemma NothingInOrder(table: seq<Entry>, reverse: bool)
    ensures InValueOrder(table, reverse, [])
  {
  }

  lemma NothingListed(low: Entry, high: Entry)
    ensures Listed([], low, high, [])
  {
  }

  lemma SortedValues(d: Dictionary)
    requires d.Valid()
    ensures Ascending(EntryOrdering(), d.values) && forall k :: 0 <= k < |d.values| ==> d.values[k].Value?
  {
  }

  /* ---- the query ---- */

  /** `out` is exactly the triples of `all` with one of the objects, each once, object by object
      in the order of the ids. */
  ghost predicate ByObject(all: set<Triple>, ids: seq<nat>, out: seq<Triple>) {
    && Distinct(out) && (forall t :: t in out <==> t in all && t.o in ids)
  }

  lemma ByObjectMore(all: set<Triple>, ids: seq<nat>, out: seq<Triple>, id: nat, more: seq<Triple>)
    requires ByObject(all, ids, out) && id !in ids
    requires Answers(Order.ByObject, ObjectIs(id), all, more)
    ensures ByObject(all, ids + [id], out + more)
  {
    forall t ensures t in more <==> t in all && t.o == id {
      assert t in more <==> t in Elements(more);
    }
    forall i, j | 0 <= i < j < |more| ensures more[i] != more[j] {
      assert Before(Order.ByObject, more[i], more[j]);
    }
    forall i, j | 0 <= i < |out| && 0 <= j < |more| ensures out[i] != more[j] {
      assert out[i] in out && more[j] in more;
    }
  }

  /** One object's triples by subject and predicate; the objects in the order of the range. */
  ghost predicate AnswerOrder(layer: InternalLayer, reverse: bool, out: seq<Triple>)
    requires DictsValid(layer)
  {
    forall i, j :: 0 <= i < j < |out| ==>
      if out[i].o == out[j].o then Before(BySubject, out[i], out[j])
      else ComesFirst(layer, reverse, out[i].o, out[j].o)
  }

  lemma AnswerMore(layer: InternalLayer, reverse: bool, ids: seq<nat>, k: nat, out: seq<Triple>, more: seq<Triple>)
    requires DictsValid(layer) && RangeOrder(layer, reverse, ids) && k < |ids| && ids[k] !in ids[..k]
    requires AnswerOrder(layer, reverse, out) && forall t :: t in out ==> t.o in ids[..k]
    requires Increasing(Order.ByObject, more) && forall t :: t in more ==> t.o == ids[k]
    ensures AnswerOrder(layer, reverse, out + more)
  {
    hide ComesFirst, DictsValid;
    var all := out + more;
    forall i, j | 0 <= i < j < |all| ensures if all[i].o == all[j].o then Before(BySubject, all[i], all[j])
      else ComesFirst(layer, reverse, all[i].o, all[j].o)
    {
      if i < |out| <= j {
        assert all[i] in out && all[j] in more;
        var m :| 0 <= m < k && ids[m] == all[i].o;
      } else if |out| <= i {
        assert all[i] in more && all[j] in more;
        assert Before(Order.ByObject, more[i - |out|], more[j - |out|]);
      }
    }
  }

  /** The triples whose object is a value in `[low, high)`: each exactly once, over all layers and
      through their id maps, object by object. The objects of a lower layer come first, those of one
      layer in the order of the values or, in the reverse query, in the opposite order. */
  method TriplesValueRange(layer: InternalLayer, low: Entry, high: Entry, reverse: bool) returns (out: seq<Triple>)
    requires Grounded(layer) && low.Value? && high.Value?
    ensures Distinct(out) && AnswerOrder(layer, reverse, out)
    ensures forall t :: t in out <==>
      t in layer.TripleSet() && TablesOf(layer).Knows(t) && InRange(low, high, TablesOf(layer).entries[t.o - 1])
  {
    hide InternalLayer.Valid, InternalLayer.TripleSet, Table, PredicateTable, DictsValid, KnowsAll, Distinct, InRange,
      Listed, Answers, ByObject, RangeOrder, AnswerOrder, Increasing;
    out := [];
    NoAnswer(layer, reverse);
    if low.kind != high.kind {
      EmptyRange(low, high);
      return;
    }
    var ids := ObjectIds(layer, low, high, reverse);
    NothingByObject(layer.TripleSet(), ids[..0]);
    for k := 0 to |ids|
      invariant ByObject(layer.TripleSet(), ids[..k], out) && AnswerOrder(layer, reverse, out)
    {
      var more := TriplesO(layer, ids[k]);
      IdsApart(Table(layer), low, high, ids, k);
      OfObjects(layer.TripleSet(), ids[..k], out);
      OfObject(layer.TripleSet(), ids[k], more);
      AnswerMore(layer, reverse, ids, k, out, more);
      ByObjectMore(layer.TripleSet(), ids[..k], out, ids[k], more);
      assert ids[..k + 1] == ids[..k] + [ids[k]];
      out := out + more;
    }
    assert ids[..|ids|] == ids;
    InRangeExactly(layer, low, high, ids, out);
  }

  lemma NoAnswer(layer: InternalLayer, reverse: bool)
    requires DictsValid(layer)
    ensures AnswerOrder(layer, reverse, [])
  {
  }

  lemma OfObjects(all: set<Triple>, ids: seq<nat>, out: seq<Triple>)
    requires ByObject(all, ids, out)
    ensures forall t :: t in out ==> t.o in ids
  {
  }

  lemma OfObject(all: set<Triple>, id: nat, more: seq<Triple>)
    requires Answers(Order.ByObject, ObjectIs(id), all, more)
    ensures Increasing(Order.ByObject, more) && forall t :: t in more ==> t.o == id
  {
    hide Increasing;
    forall t | t in more ensures t.o == id {
      assert t in Elements(more);
    }
  }

  lemma EmptyRange(low: Entry, high: Entry)
    requires low.Value? && high.Value? && low.kind != high.kind
    ensures forall e :: !InRange(low, high, e)
    ensures Distinct<Triple>([])
  {
  }

  lemma NothingByObject(all: set<Triple>, ids: seq<nat>)
    requires ids == []
    ensures ByObject(all, ids, [])
  {
  }

  lemma IdsApart(table: seq<Entry>, low: Entry, high: Entry, ids: seq<nat>, k: nat)
    requires Listed(table, low, high, ids) && k < |ids|
    ensures ids[k] !in ids[..k]
  {
  }

  lemma InRangeExactly(layer: InternalLayer, low: Entry, high: Entry, ids: seq<nat>, out: seq<Triple>)
    requires Grounded(layer) && Listed(Table(layer), low, high, ids) && ByObject(layer.TripleSet(), ids, out)
    ensures Distinct(out)
    ensures forall t :: t in out <==>
      t in layer.TripleSet() && TablesOf(layer).Knows(t) && InRange(low, high, TablesOf(layer).entries[t.o - 1])
  {
    hide InternalLayer.Valid, InternalLayer.TripleSet, Table, PredicateTable, DictsValid, InRange;
    forall t | t in layer.TripleSet() ensures TablesOf(layer).Knows(t) &&
      (t.o in ids <==> InRange(low, high, TablesOf(layer).entries[t.o - 1])) {
      assert TablesOf(layer).Knows(t);
      assert InRange(low, high, Table(layer)[t.o - 1]) <==> 0 + (t.o - 1) + 1 in ids;
    }
  }
}
