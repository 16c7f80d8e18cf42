/** The list behind an LRU cache, least recently used first: promoting entries, evicting them, and
    in what order what is left stands. */
module RecencyLists {
  import opened Triples
  import opened Dictionaries
  import opened InternalLayers

  type Bytes = seq<byte>

  /** What a lookup in the origin gave: bytes, or the kind of an error. */
  datatype Lookup = Ok(bytes: Bytes) | Err(kind: nat)

  /** A cached layer, or the barrier of the request that is looking it up. */
  datatype CacheEntry = Resolving(barrier: nat) | Resolved(bytes: Bytes)

  type Item = (Name, CacheEntry)

  /* ---- the recency list: least recently used first ---- */

  predicate KeysDistinct(items: seq<Item>) {
    forall i, j :: 0 <= i < j < |items| ==> items[i].0 != items[j].0
  }

  function Size(e: CacheEntry): nat {
    if e.Resolved? then |e.bytes| else 0
  }

  /** The bytes held by resolved entries. */
  function Total(items: seq<Item>): nat {
    if items == [] then 0 else Total(items[..|items| - 1]) + Size(items[|items| - 1].1)
  }

  function IndexOf(items: seq<Item>, id: Name): (r: Option<nat>)
    ensures r.Some? ==> r.value < |items| && items[r.value].0 == id
    ensures r.None? ==> forall i :: 0 <= i < |items| ==> items[i].0 != id
  {
    if items == [] then None
    else if items[|items| - 1].0 == id then Some(|items| - 1)
    else IndexOf(items[..|items| - 1], id)
  }

  function Without(items: seq<Item>, i: nat): (r: seq<Item>)
    requires i < |items|
    ensures |r| == |items| - 1
  {
    items[..i] + items[i + 1..]
  }

  /** Entry `i` becomes the most recently used one, with a possibly new value. */
  function Promoted(items: seq<Item>, i: nat, e: CacheEntry): seq<Item>
    requires i < |items|
  {
    Without(items, i) + [(items[i].0, e)]
  }

  lemma {:induction false} TotalConcat(a: seq<Item>, b: seq<Item>)
    ensures Total(a + b) == Total(a) + Total(b)
  {
    if b == [] {
      assert a + b == a;
    } else {
      assert (a + b)[..|a + b| - 1] == a + b[..|b| - 1];
      TotalConcat(a, b[..|b| - 1]);
    }
  }

  lemma TotalWithout(items: seq<Item>, i: nat)
    requires i < |items|
    ensures Total(items) == Total(Without(items, i)) + Size(items[i].1)
  {
    hide Total;
    var front, back := items[..i], items[i + 1..];
    Pieces(items, i);
    TotalBetween(front, items[i], back);
  }

  lemma Pieces<T>(list: seq<T>, i: nat)
    requires i < |list|
    ensures list == list[..i] + [list[i]] + list[i + 1..]
  {
  }

  lemma TotalBetween(front: seq<Item>, x: Item, back: seq<Item>)
    ensures Total(front + [x] + back) == Total(front + back) + Size(x.1)
  {
    hide Total;
    TotalConcat(front + [x], back);
    TotalSnoc(front, x);
    TotalConcat(front, back);
  }

  lemma TotalSnoc(items: seq<Item>, x: Item)
    ensures Total(items + [x]) == Total(items) + Size(x.1)
  {
    assert (items + [x])[..|items|] == items;
  }

  lemma WithoutElement(items: seq<Item>, i: nat, x: Item)
    requires i < |items| && KeysDistinct(items)
    ensures x in Without(items, i) <==> x in items && x.0 != items[i].0
    ensures KeysDistinct(Without(items, i))
  {
    var r := Without(items, i);
    assert forall k :: 0 <= k < i ==> r[k] == items[k];
    assert forall k :: i <= k < |r| ==> r[k] == items[k + 1];
    if x in items && x.0 != items[i].0 {
      var k :| 0 <= k < |items| && items[k] == x;
      assert r[if k < i then k else k - 1] == x;
    }
  }

  lemma PromotedIs(items: seq<Item>, i: nat, e: CacheEntry)
    requires i < |items| && KeysDistinct(items)
    ensures KeysDistinct(Promoted(items, i, e))
    ensures forall x :: x in Promoted(items, i, e) <==> x == (items[i].0, e) || (x in items && x.0 != items[i].0)
    ensures Total(Promoted(items, i, e)) + Size(items[i].1) == Total(items) + Size(e)
  {
    hide Without, Total;
    forall x ensures x in Promoted(items, i, e) <==> x == (items[i].0, e) || (x in items && x.0 != items[i].0) {
      WithoutElement(items, i, x);
    }
    var rest := Without(items, i);
    forall k | 0 <= k < |rest| ensures rest[k].0 != items[i].0 {
      WithoutElement(items, i, rest[k]);
    }
    WithoutElement(items, i, items[i]);
    TotalWithout(items, i);
    TotalSnoc(rest, (items[i].0, e));
  }

  lemma AppendedIs(items: seq<Item>, x: Item)
    requires KeysDistinct(items) && forall i :: 0 <= i < |items| ==> items[i].0 != x.0
    ensures KeysDistinct(items + [x]) && Total(items + [x]) == Total(items) + Size(x.1)
    ensures forall y :: y in items + [x] <==> y in items || y == x
  {
    TotalSnoc(items, x);
  }

  /* ---- making room ---- */

  /** The entries still being resolved. */
  function Pinned(items: seq<Item>): seq<Item> {
    if items == [] then []
    else Pinned(items[..|items| - 1]) + (if items[|items| - 1].1.Resolving? then [items[|items| - 1]] else [])
  }

  /** What is left once the first `j` entries have been gone through: resolved ones are evicted,
      the others moved to the recent end. */
  function GoneThrough(items: seq<Item>, j: nat): seq<Item>
    requires j <= |items|
  {
    items[j..] + Pinned(items[..j])
  }

  /** How many entries, from the least recently used on, have to be gone through to free
      `required` bytes. */
  function Needed(items: seq<Item>, required: nat): (j: nat)
    requires required <= Total(items)
    ensures j <= |items| && Total(items[..j]) >= required
    ensures forall k :: 0 <= k < j ==> Total(items[..k]) < required
  {
    if required == 0 then 0
    else if Total(items[..|items| - 1]) >= required then
      var j := Needed(items[..|items| - 1], required);
      assert items[..|items| - 1][..j] == items[..j];
      assert forall k :: 0 <= k < j ==> items[..|items| - 1][..k] == items[..k];
      j
    else
      TotalsGrow(items);
      assert items[..|items|] == items;
      |items|
  }

  lemma {:induction false} TotalsGrow(items: seq<Item>)
    ensures forall k :: 0 <= k < |items| ==> Total(items[..k]) <= Total(items[..|items| - 1])
  {
    forall k | 0 <= k < |items| ensures Total(items[..k]) <= Total(items[..|items| - 1]) {
      assert items[..|items| - 1] == items[..k] + items[k..|items| - 1];
      TotalConcat(items[..k], items[k..|items| - 1]);
    }
  }

  /** The list after freeing `required` bytes: no more entries are evicted than needed, the least
      recently used first, and none that is being resolved. */
  function Freed(items: seq<Item>, required: nat): seq<Item>
    requires required <= Total(items)
  {
    GoneThrough(items, Needed(items, required))
  }

  /** The list after making room for `required` bytes where at most `limit` may be held. */
  function MadeRoom(items: seq<Item>, limit: nat, required: nat): seq<Item>
    requires Total(items) <= limit
  {
    if required <= limit && limit - Total(items) < required then Freed(items, required - (limit - Total(items)))
      else items
  }

  /** What remains of an entry that was being resolved: the bytes found, if they fit. */
  function AfterGet(items: seq<Item>, limit: nat, id: Name, lookup: Lookup): seq<Item>
    requires Total(items) <= limit
  {
    var freed := if lookup.Ok? then MadeRoom(items, limit, |lookup.bytes|) else items;
    match IndexOf(freed, id)
    case None => freed
    case Some(i) => if lookup.Ok? && |lookup.bytes| <= limit then Promoted(freed, i, Resolved(lookup.bytes))
      else Without(freed, i)
  }

  lemma {:induction false} PinnedIs(items: seq<Item>, x: Item)
    ensures x in Pinned(items) <==> x in items && x.1.Resolving?
  {
    if items != [] {
      PinnedIs(items[..|items| - 1], x);
      assert items == items[..|items| - 1] + [items[|items| - 1]];
    }
  }

  lemma {:induction false} PinnedDistinct(items: seq<Item>)
    requires KeysDistinct(items)
    ensures KeysDistinct(Pinned(items))
  {
    if items != [] {
      var init, last := items[..|items| - 1], items[|items| - 1];
      assert forall i :: 0 <= i < |init| ==> init[i] == items[i];
      PinnedDistinct(init);
      var rest := Pinned(init);
      forall i | 0 <= i < |rest| ensures rest[i].0 != last.0 {
        PinnedIs(init, rest[i]);
        assert rest[i] in init;
      }
    }
  }

  lemma {:induction false} PinnedWeighNothing(items: seq<Item>)
    ensures Total(Pinned(items)) == 0
  {
    if items != [] {
      var init, last := items[..|items| - 1], items[|items| - 1];
      PinnedWeighNothing(init);
      if last.1.Resolving? {
        TotalSnoc(Pinned(init), last);
      } else {
        assert Pinned(init) + [] == Pinned(init);
      }
    }
  }

  lemma GoneThroughIs(items: seq<Item>, j: nat)
    requires KeysDistinct(items) && j <= |items|
    ensures KeysDistinct(GoneThrough(items, j))
    ensures Total(GoneThrough(items, j)) == Total(items) - Total(items[..j])
    ensures forall x :: x in GoneThrough(items, j) ==> x in items
    ensures forall x :: x in items && x.1.Resolving? ==> x in GoneThrough(items, j)
  {
    hide Pinned, Total;
    var front, back, pinned := items[..j], items[j..], Pinned(items[..j]);
    assert items == front + back;
    PinnedDistinct(front);
    PinnedWeighNothing(front);
    TotalConcat(front, back);
    TotalConcat(back, pinned);
    forall x ensures x in pinned <==> x in front && x.1.Resolving? {
      PinnedIs(front, x);
    }
    forall i, k | 0 <= i < |back| && 0 <= k < |pinned| ensures back[i].0 != pinned[k].0 {
      assert pinned[k] in front;
      var m :| 0 <= m < j && front[m] == pinned[k];
      assert items[m].0 != items[j + i].0;
    }
  }

  lemma NothingNeeded(items: seq<Item>)
    ensures Total(items[..0]) == 0 && Needed(items, 0) == 0 && GoneThrough(items, 0) == items &&
      Freed(items, 0) == items
  {
    assert items[0..] + [] == items;
    assert Needed(items, 0) == 0;
  }

  lemma Untouched(items: seq<Item>)
    ensures GoneThrough(items, 0) == items && Total(items[..0]) == 0
  {
    assert items[0..] + [] == items;
  }

  lemma FreedIs(items: seq<Item>, required: nat)
    requires KeysDistinct(items) && required <= Total(items)
    ensures KeysDistinct(Freed(items, required)) && Total(Freed(items, required)) + required <= Total(items)
    ensures Total(Freed(items, required)) == Total(items) - Total(items[..Needed(items, required)])
    ensures required > 0 ==> items != [] && Needed(items, required) > 0
    ensures forall x :: x in Freed(items, required) ==> x in items
    ensures forall x :: x in items && x.1.Resolving? ==> x in Freed(items, required)
  {
    hide Pinned;
    GoneThroughIs(items, Needed(items, required));
    assert items[..0] == [];
  }

  lemma StillNeeded(items: seq<Item>, j: nat, required: nat)
    requires required <= Total(items) && j < Needed(items, required)
    ensures j < |items|
    ensures j + 1 < Needed(items, required) <==> Total(items[..j + 1]) < required
    ensures j + 1 == Needed(items, required) <==> Total(items[..j + 1]) >= required
  {
  }

  /** Passing one more entry. */
  lemma GoFurther(items: seq<Item>, j: nat)
    requires j < |items|
    ensures var now := GoneThrough(items, j);
      now != [] && now[0] == items[j] && GoneThrough(items, j + 1) ==
      now[1..] + (if items[j].1.Resolving? then [items[j]] else [])
    ensures Total(items[..j + 1]) == Total(items[..j]) + Size(items[j].1)
    ensures Total(items[..j + 1]) <= Total(items)
  {
    hide Pinned, Total;
    PinnedNext(items, j);
    TotalNext(items, j);
    TailMoves(items, j, Pinned(items[..j]), if items[j].1.Resolving? then [items[j]] else []);
  }

  lemma TailMoves<T>(list: seq<T>, j: nat, passed: seq<T>, more: seq<T>)
    requires j < |list|
    ensures var now := list[j..] + passed;
      now != [] && now[0] == list[j] && list[j + 1..] + (passed + more) == now[1..] + more
  {
    assert (list[j..] + passed)[1..] == list[j + 1..] + passed;
  }

  lemma PinnedNext(items: seq<Item>, j: nat)
    requires j < |items|
    ensures Pinned(items[..j + 1]) == Pinned(items[..j]) + (if items[j].1.Resolving? then [items[j]] else [])
  {
    assert items[..j + 1][..j] == items[..j];
  }

  lemma TotalNext(items: seq<Item>, j: nat)
    requires j < |items|
    ensures Total(items[..j + 1]) == Total(items[..j]) + Size(items[j].1)
    ensures Total(items[..j + 1]) <= Total(items)
  {
    assert items[..j + 1][..j] == items[..j];
    assert items == items[..j + 1] + items[j + 1..];
    TotalConcat(items[..j + 1], items[j + 1..]);
  }

  lemma FirstIs(items: seq<Item>, i: nat)
    requires KeysDistinct(items) && i < |items| && items[i].0 == items[0].0
    ensures i == 0
  {
  }

  lemma SameKey(items: seq<Item>, i: nat, x: Item)
    requires KeysDistinct(items) && i < |items| && x in items && x.0 == items[i].0
    ensures x == items[i]
  {
  }

  lemma StillThere(items: seq<Item>, entry: Item)
    requires KeysDistinct(items) && entry in items
    ensures IndexOf(items, entry.0).Some? && items[IndexOf(items, entry.0).value] == entry
  {
    hide IndexOf;
    SameKey(items, IndexOf(items, entry.0).value, entry);
  }

  lemma NotThere(before: seq<Item>, after: seq<Item>, id: Name)
    requires IndexOf(before, id).None? && forall x :: x in after ==> x in before
    ensures forall i :: 0 <= i < |after| ==> after[i].0 != id
  {
    hide IndexOf;
    forall i | 0 <= i < |after| ensures after[i].0 != id {
      assert after[i] in before;
    }
  }

  /* ---- in what order entries stand ---- */

  /** The entry of `a` has been used less recently than that of `b`. */
  predicate Precedes(items: seq<Item>, a: Name, b: Name) {
    exists i, j :: 0 <= i < j < |items| && items[i].0 == a && items[j].0 == b
  }

  /** Apart from the entry of `id`, entries and order are the same. */
  ghost predicate OthersKept(before: seq<Item>, after: seq<Item>, id: Name) {
    && (forall x :: x in after && x.0 != id ==> x in before)
    && (forall x :: x in before && x.0 != id ==> x in after)
    && (forall a, b :: a != id && b != id ==> (Precedes(after, a, b) <==> Precedes(before, a, b)))
  }

  /** The entry of `id` is `e`, and the most recently used one. */
  ghost predicate Placed(before: seq<Item>, after: seq<Item>, id: Name, e: CacheEntry) {
    after != [] && after[|after| - 1] == (id, e) && OthersKept(before, after, id)
  }

  ghost predicate Removed(before: seq<Item>, after: seq<Item>, id: Name) {
    (forall x :: x in after ==> x.0 != id) && OthersKept(before, after, id)
  }

  /** The first `j` entries are gone through, just enough for `required` bytes: the resolved ones
      among them are gone, the others have come to stand after all that were not reached. */
  ghost predicate EvictedUpto(before: seq<Item>, after: seq<Item>, required: nat, j: nat) {
    && j <= |before| && required <= Total(before[..j]) && (j > 0 ==> Total(before[..j - 1]) < required)
    && (forall x :: x in after ==> x in before)
    && (forall i :: 0 <= i < |before| ==> (before[i] in after <==> j <= i || before[i].1.Resolving?))
    && (forall i, k :: 0 <= i < k < |before| && before[i] in after && before[k] in after ==>
      if i < j <= k then Precedes(after, before[k].0, before[i].0) else Precedes(after, before[i].0, before[k].0))
  }

  ghost predicate Evicted(before: seq<Item>, after: seq<Item>, required: nat) {
    exists j :: EvictedUpto(before, after, required, j)
  }

  /** Room for `required` bytes where at most `limit` may be held, if they can fit at all. */
  ghost predicate RoomMade(before: seq<Item>, after: seq<Item>, limit: nat, required: nat) {
    if required > limit || Total(before) + required <= limit then after == before
    else Evicted(before, after, Total(before) + required - limit)
  }

  /** The entry of `id` is brought up to date with what was found. */
  ghost predicate BroughtUpToDate(before: seq<Item>, after: seq<Item>, limit: nat, id: Name, lookup: Lookup) {
    if lookup.Ok? && |lookup.bytes| <= limit
      then exists freed :: RoomMade(before, freed, limit, |lookup.bytes|) && Placed(freed, after, id,
        Resolved(lookup.bytes))
      else Removed(before, after, id)
  }

  /** Whatever room had to be made, resolved entries other than that of `id` stand as before. */
  ghost predicate ResolvedInOrder(before: seq<Item>, after: seq<Item>, id: Name) {
    forall x, y :: x in after && y in after && x.1.Resolved? && y.1.Resolved? && x.0 != id && y.0 != id ==>
      (Precedes(after, x.0, y.0) <==> Precedes(before, x.0, y.0))
  }

  lemma PrecedesAt(items: seq<Item>, i: nat, j: nat)
    requires KeysDistinct(items) && i < |items| && j < |items|
    ensures Precedes(items, items[i].0, items[j].0) <==> i < j
  {
  }

  lemma WithoutOthers(items: seq<Item>, i: nat)
    requires i < |items| && KeysDistinct(items)
    ensures KeysDistinct(Without(items, i)) && Removed(items, Without(items, i), items[i].0)
  {
    hide Precedes, KeysDistinct;
    var rest, id := Without(items, i), items[i].0;
    forall x ensures x in rest <==> x in items && x.0 != id {
      WithoutElement(items, i, x);
    }
    WithoutElement(items, i, items[i]);
    forall a, b | a != id && b != id ensures Precedes(rest, a, b) <==> Precedes(items, a, b) {
      WithoutOrder(items, i, a, b);
    }
  }

  lemma WithoutOrder(items: seq<Item>, i: nat, a: Name, b: Name)
    requires i < |items| && a != items[i].0 && b != items[i].0
    ensures Precedes(Without(items, i), a, b) <==> Precedes(items, a, b)
  {
    var rest := Without(items, i);
    if Precedes(items, a, b) {
      var m, n :| 0 <= m < n < |items| && items[m].0 == a && items[n].0 == b;
      var m', n' := if m < i then m else m - 1, if n < i then n else n - 1;
      assert rest[m'].0 == a && rest[n'].0 == b;
    }
    if Precedes(rest, a, b) {
      var m, n :| 0 <= m < n < |rest| && rest[m].0 == a && rest[n].0 == b;
      var m', n' := if m < i then m else m + 1, if n < i then n else n + 1;
      assert items[m'].0 == a && items[n'].0 == b;
    }
  }

  lemma PromotedPlaced(items: seq<Item>, i: nat, e: CacheEntry)
    requires i < |items| && KeysDistinct(items)
    ensures Placed(items, Promoted(items, i, e), items[i].0, e)
  {
    hide Precedes, KeysDistinct, Without;
    WithoutOthers(items, i);
    var rest, after, id := Without(items, i), Promoted(items, i, e), items[i].0;
    forall a, b | a != id && b != id ensures Precedes(after, a, b) <==> Precedes(items, a, b) {
      AppendedOrder(rest, (id, e), a, b);
    }
  }

  lemma AppendedOrder(items: seq<Item>, x: Item, a: Name, b: Name)
    requires b != x.0
    ensures Precedes(items + [x], a, b) <==> Precedes(items, a, b)
  {
    if Precedes(items, a, b) {
      var m, n :| 0 <= m < n < |items| && items[m].0 == a && items[n].0 == b;
      assert (items + [x])[m].0 == a && (items + [x])[n].0 == b;
    }
  }

  lemma {:induction false} PinnedInOrder(items: seq<Item>, i: nat, k: nat)
    requires i < k < |items| && items[i].1.Resolving? && items[k].1.Resolving?
    ensures Precedes(Pinned(items), items[i].0, items[k].0)
  {
    var init, last := items[..|items| - 1], items[|items| - 1];
    var rest := Pinned(init);
    if k < |items| - 1 {
      PinnedInOrder(init, i, k);
      var m, n :| 0 <= m < n < |rest| && rest[m].0 == items[i].0 && rest[n].0 == items[k].0;
      assert Pinned(items)[m] == rest[m] && Pinned(items)[n] == rest[n];
    } else {
      PinnedIs(init, items[i]);
      assert init[i] == items[i];
      var m :| 0 <= m < |rest| && rest[m] == items[i];
      assert Pinned(items)[m] == rest[m] && Pinned(items)[|rest|] == items[k];
    }
  }

  lemma ConcatOrder(a: seq<Item>, b: seq<Item>, x: Name, y: Name)
    ensures Precedes(a, x, y) ==> Precedes(a + b, x, y)
    ensures Precedes(b, x, y) ==> Precedes(a + b, x, y)
  {
    if Precedes(a, x, y) {
      var m, n :| 0 <= m < n < |a| && a[m].0 == x && a[n].0 == y;
      assert (a + b)[m].0 == x && (a + b)[n].0 == y;
    }
    if Precedes(b, x, y) {
      var m, n :| 0 <= m < n < |b| && b[m].0 == x && b[n].0 == y;
      assert (a + b)[|a| + m].0 == x && (a + b)[|a| + n].0 == y;
    }
  }

  lemma GoneThroughOrder(items: seq<Item>, j: nat, i: nat, k: nat)
    requires j <= |items| && i < k < |items|
    requires j <= i || items[i].1.Resolving?
    requires j <= k || items[k].1.Resolving?
    ensures var after := GoneThrough(items, j);
      if i < j <= k then Precedes(after, items[k].0, items[i].0) else Precedes(after, items[i].0, items[k].0)
  {
    hide Pinned;
    var front, back, pinned := items[..j], items[j..], Pinned(items[..j]);
    if j <= i {
      assert back[i - j] == items[i] && back[k - j] == items[k];
      ConcatOrder(back, pinned, items[i].0, items[k].0);
    } else if k < j {
      PinnedInOrder(front, i, k);
      ConcatOrder(back, pinned, items[i].0, items[k].0);
    } else {
      PinnedIs(front, items[i]);
      assert front[i] == items[i];
      var m :| 0 <= m < |pinned| && pinned[m] == items[i];
      assert (back + pinned)[k - j] == items[k] && (back + pinned)[|back| + m] == items[i];
    }
  }

  /** An entry is still there exactly when it was not reached or is being resolved. */
  lemma GoneThroughHas(items: seq<Item>, j: nat, i: nat)
    requires KeysDistinct(items) && j <= |items| && i < |items|
    ensures items[i] in GoneThrough(items, j) <==> j <= i || items[i].1.Resolving?
  {
    hide Pinned;
    PinnedIs(items[..j], items[i]);
    if i < j {
      assert items[..j][i] == items[i];
      assert items[i] !in items[j..];
    } else {
      assert items[j..][i - j] == items[i];
    }
  }

  lemma FreedEvicted(items: seq<Item>, required: nat)
    requires KeysDistinct(items) && required <= Total(items)
    ensures Evicted(items, Freed(items, required), required)
  {
    hide Pinned, Total, GoneThrough, Precedes, KeysDistinct;
    var j := Needed(items, required);
    FreedIs(items, required);
    forall i | 0 <= i < |items| ensures items[i] in Freed(items, required) <==> j <= i || items[i].1.Resolving? {
      GoneThroughHas(items, j, i);
    }
    forall i, k | 0 <= i < k < |items| && items[i] in Freed(items, required) && items[k] in Freed(items, required)
      ensures if i < j <= k then Precedes(Freed(items, required), items[k].0, items[i].0)
        else Precedes(Freed(items, required), items[i].0, items[k].0)
    {
      GoneThroughOrder(items, j, i, k);
    }
    assert EvictedUpto(items, Freed(items, required), required, j);
  }

  lemma MadeRoomIs(items: seq<Item>, limit: nat, required: nat)
    requires KeysDistinct(items) && Total(items) <= limit
    ensures RoomMade(items, MadeRoom(items, limit, required), limit, required)
    ensures KeysDistinct(MadeRoom(items, limit, required))
  {
    hide Freed, Evicted, KeysDistinct, Total;
    if required <= limit && limit - Total(items) < required {
      FreedIs(items, required - (limit - Total(items)));
      FreedEvicted(items, required - (limit - Total(items)));
    }
  }

  /* ---- what that means ---- */

  /** What is evicted has been used less recently than any resolved entry that stays. */
  lemma LeastRecentGo(before: seq<Item>, after: seq<Item>, required: nat, x: Item, y: Item)
    requires KeysDistinct(before) && Evicted(before, after, required)
    requires x in before && x !in after && y in after && y.1.Resolved?
    ensures x.1.Resolved? && Precedes(before, x.0, y.0)
  {
    var j :| EvictedUpto(before, after, required, j);
    var i :| 0 <= i < |before| && before[i] == x;
    var k :| 0 <= k < |before| && before[k] == y;
    PrecedesAt(before, i, k);
  }

  /** The most recently used entry stays as long as another resolved one does. */
  lemma MostRecentStays(before: seq<Item>, after: seq<Item>, required: nat, y: Item)
    requires KeysDistinct(before) && before != [] && Evicted(before, after, required)
    requires y in after && y.1.Resolved?
    ensures before[|before| - 1] in after
  {
    hide Evicted;
    if before[|before| - 1] !in after {
      LeastRecentGo(before, after, required, before[|before| - 1], y);
    }
  }

  lemma EvictedInOrder(before: seq<Item>, after: seq<Item>, required: nat, id: Name)
    requires KeysDistinct(before) && KeysDistinct(after) && Evicted(before, after, required)
    ensures ResolvedInOrder(before, after, id)
  {
    hide Precedes, KeysDistinct;
    var j :| EvictedUpto(before, after, required, j);
    forall x, y | x in after && y in after && x.1.Resolved? && y.1.Resolved? && x.0 != id && y.0 != id
      ensures Precedes(after, x.0, y.0) <==> Precedes(before, x.0, y.0)
    {
      var i :| 0 <= i < |before| && before[i] == x;
      var k :| 0 <= k < |before| && before[k] == y;
      PrecedesAt(before, i, k);
      OneWay(before, x.0, y.0);
      OneWay(after, x.0, y.0);
      if i < k {
        assert Precedes(after, x.0, y.0);
      } else if k < i {
        assert Precedes(after, y.0, x.0);
      }
    }
  }

  lemma OneWay(items: seq<Item>, a: Name, b: Name)
    requires KeysDistinct(items)
    ensures !(Precedes(items, a, b) && Precedes(items, b, a))
  {
  }

  /** Bringing an entry up to date: what it says and where everything stands. */
  lemma AfterGetIs(items: seq<Item>, limit: nat, id: Name, lookup: Lookup)
    requires KeysDistinct(items) && Total(items) <= limit
    requires IndexOf(items, id).Some? && items[IndexOf(items, id).value].1.Resolving?
    ensures var after := AfterGet(items, limit, id, lookup);
      && BroughtUpToDate(items, after, limit, id, lookup) && ResolvedInOrder(items, after, id)
      && (lookup.Ok? && |lookup.bytes| <= limit ==>
        after != [] && after[|after| - 1] == (id, Resolved(lookup.bytes)))
  {
    hide KeysDistinct, Total, MadeRoom, RoomMade, IndexOf, Without, Precedes;
    var entry := items[IndexOf(items, id).value];
    var freed := if lookup.Ok? then MadeRoom(items, limit, |lookup.bytes|) else items;
    RoomInOrder(items, limit, if lookup.Ok? then |lookup.bytes| else 0, id, entry);
    StillThere(items, entry);
    StillThere(freed, entry);
    var i := IndexOf(freed, id).value;
    WithoutOthers(freed, i);
    if lookup.Ok? {
      PromotedPlaced(freed, i, Resolved(lookup.bytes));
    }
  }

  lemma RoomInOrder(items: seq<Item>, limit: nat, required: nat, id: Name, entry: Item)
    requires KeysDistinct(items) && Total(items) <= limit && entry in items && entry.1.Resolving?
    ensures var freed := MadeRoom(items, limit, required);
      && KeysDistinct(freed) && RoomMade(items, freed, limit, required) && ResolvedInOrder(items, freed, id)
      && entry in freed && (required > limit ==> freed == items)
  {
    hide KeysDistinct, Total, Freed, Evicted, Precedes;
    MadeRoomIs(items, limit, required);
    if required <= limit && limit - Total(items) < required {
      FreedIs(items, required - (limit - Total(items)));
      EvictedInOrder(items, MadeRoom(items, limit, required), required - (limit - Total(items)), id);
    }
  }

  /** An entry being resolved that stands before an evicted one changes places with what was not
      reached. */
  lemma PassedOverExample()
    ensures var before := [(1, Resolving(0)), (2, Resolved([0])), (3, Resolved([0]))];
      Freed(before, 1) == [(3, Resolved([0])), (1, Resolving(0))]
  {
    var before: seq<Item> := [(1, Resolving(0)), (2, Resolved([0])), (3, Resolved([0]))];
    assert before[..1] == [(1, Resolving(0))] && before[..2] == [(1, Resolving(0)), (2, Resolved([0]))];
    assert before[..2][..1] == before[..1] && before[..1][..0] == [];
    assert before[..3] == before;
    assert Total(before[..1]) == 0 && Total(before[..2]) == 1;
    assert Needed(before, 1) == 2;
    assert Pinned(before[..1]) == [(1, Resolving(0))] && Pinned(before[..2]) == [(1, Resolving(0))];
  }
}
