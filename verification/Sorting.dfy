/** Sorting over an arbitrary total order: the one sort the builders, the rollups and the
    object index rely on, and the fact that makes their results order-independent: the sorted
    form of a multiset is unique. */
module Sorting {

  ghost predicate TotalOrder<T(!new)>(le: (T, T) -> bool) {
    && (forall x :: le(x, x))
    && (forall x, y :: le(x, y) && le(y, x) ==> x == y)
    && (forall x, y, z :: le(x, y) && le(y, z) ==> le(x, z))
    && (forall x, y :: le(x, y) || le(y, x))
  }

  predicate Sorted<T>(le: (T, T) -> bool, s: seq<T>) {
    forall i, j :: 0 <= i < j < |s| ==> le(s[i], s[j])
  }

  predicate Distinct<T(==)>(s: seq<T>) {
    forall i, j :: 0 <= i < j < |s| ==> s[i] != s[j]
  }

  /** Sorted without repetition. */
  predicate Ascending<T(==)>(le: (T, T) -> bool, s: seq<T>) {
    forall i, j :: 0 <= i < j < |s| ==> le(s[i], s[j]) && s[i] != s[j]
  }

  function Elements<T>(s: seq<T>): set<T> {
    set x | x in s
  }

  function Insert<T>(le: (T, T) -> bool, x: T, s: seq<T>): seq<T> {
    if s == [] then [x]
    else if le(x, s[0]) then [x] + s
    else [s[0]] + Insert(le, x, s[1..])
  }

  function Sort<T>(le: (T, T) -> bool, s: seq<T>): seq<T> {
    if s == [] then [] else Insert(le, s[0], Sort(le, s[1..]))
  }

  /** Keeps the first of every run of equal elements. */
  function Dedup<T(==)>(s: seq<T>): seq<T> {
    if |s| < 2 then s
    else if s[0] == s[1] then Dedup(s[1..])
    else [s[0]] + Dedup(s[1..])
  }

  lemma {:induction false} InsertIsSorted<T(!new)>(le: (T, T) -> bool, x: T, s: seq<T>)
    requires TotalOrder(le) && Sorted(le, s)
    ensures Sorted(le, Insert(le, x, s))
    ensures multiset(Insert(le, x, s)) == multiset(s) + multiset{x}
  {
    if s == [] {
    } else if le(x, s[0]) {
    } else {
      InsertIsSorted(le, x, s[1..]);
      assert s == [s[0]] + s[1..];
      var rest := Insert(le, x, s[1..]);
      forall k | 0 <= k < |rest| ensures le(s[0], rest[k]) {
        assert rest[k] in multiset(rest);
        assert rest[k] == x || rest[k] in s[1..];
      }
    }
  }

  lemma {:induction false} SortIsSorted<T(!new)>(le: (T, T) -> bool, s: seq<T>)
    requires TotalOrder(le)
    ensures Sorted(le, Sort(le, s)) && multiset(Sort(le, s)) == multiset(s)
    ensures Elements(Sort(le, s)) == Elements(s)
  {
    if s == [] {
    } else {
      SortIsSorted(le, s[1..]);
      InsertIsSorted(le, s[0], Sort(le, s[1..]));
      assert s == [s[0]] + s[1..];
      SameMultisetSameElements(Sort(le, s), s);
    }
  }

  lemma SameMultisetSameElements<T>(a: seq<T>, b: seq<T>)
    requires multiset(a) == multiset(b)
    ensures Elements(a) == Elements(b) && |a| == |b|
  {
    forall x ensures x in a <==> x in b {
      assert x in a <==> x in multiset(a);
      assert x in b <==> x in multiset(b);
    }
    assert |multiset(a)| == |a| && |multiset(b)| == |b|;
  }

  lemma {:induction false} DedupAscends<T(!new)>(le: (T, T) -> bool, s: seq<T>)
    requires TotalOrder(le) && Sorted(le, s)
    ensures Ascending(le, Dedup(s)) && Elements(Dedup(s)) == Elements(s)
  {
    if |s| < 2 {
    } else {
      DedupAscends(le, s[1..]);
      assert s == [s[0]] + s[1..];
      assert Elements(s) == {s[0]} + Elements(s[1..]);
      if s[0] == s[1] {
        assert s[1] in s[1..];
      } else {
        var rest := Dedup(s[1..]);
        forall k | 0 <= k < |rest| ensures le(s[0], rest[k]) && s[0] != rest[k] {
          assert rest[k] in Elements(s[1..]);
          var m :| 0 <= m < |s[1..]| && s[1..][m] == rest[k];
          assert le(s[0], s[1]) && le(s[1], s[m + 1]);
        }
        assert Elements([s[0]] + rest) == {s[0]} + Elements(rest);
      }
    }
  }

  /** There is only one way to list a set in ascending order. */
  lemma {:induction false} AscendingIsUnique<T(!new)>(le: (T, T) -> bool, a: seq<T>, b: seq<T>)
    requires TotalOrder(le) && Ascending(le, a) && Ascending(le, b)
    requires Elements(a) == Elements(b)
    ensures a == b
  {
    EmptyHasNoElements(a);
    EmptyHasNoElements(b);
    if a != [] {
      assert a[0] in Elements(a) && b[0] in Elements(b);
      assert a[0] == b[0] by {
        var i :| 0 <= i < |b| && b[i] == a[0];
        var j :| 0 <= j < |a| && a[j] == b[0];
        assert le(a[0], b[0]) && le(b[0], a[0]);
      }
      assert Elements(a[1..]) == Elements(a) - {a[0]} by {
        AscendingTail(le, a);
      }
      assert Elements(b[1..]) == Elements(b) - {b[0]} by {
        AscendingTail(le, b);
      }
      AscendingIsUnique(le, a[1..], b[1..]);
    }
  }

  lemma EmptyHasNoElements<T>(s: seq<T>)
    ensures Elements(s) == {} <==> s == []
  {
    if s != [] {
      assert s[0] in Elements(s);
    }
  }

  lemma AscendingTail<T(!new)>(le: (T, T) -> bool, a: seq<T>)
    requires Ascending(le, a) && a != []
    ensures Elements(a[1..]) == Elements(a) - {a[0]}
  {
    assert a == [a[0]] + a[1..];
    forall x | x in a[1..] ensures x != a[0] {
    }
  }

  /** The ascending list of a finite set. */
  function AscendingOf<T(==,!new)>(le: (T, T) -> bool, s: seq<T>): (r: seq<T>)
    requires TotalOrder(le)
    ensures Ascending(le, r) && Elements(r) == Elements(s)
  {
    SortIsSorted(le, s);
    DedupAscends(le, Sort(le, s));
    Dedup(Sort(le, s))
  }

  /* ---- merging sorted runs ---- */

  /** All elements of all runs. */
  ghost function Bag<T>(runs: seq<seq<T>>): multiset<T> {
    if runs == [] then multiset{} else multiset(runs[0]) + Bag(runs[1..])
  }

  ghost function TotalLength<T>(runs: seq<seq<T>>): nat {
    if runs == [] then 0 else |runs[0]| + TotalLength(runs[1..])
  }

  ghost predicate AllSorted<T(!new)>(le: (T, T) -> bool, runs: seq<seq<T>>) {
    forall r :: 0 <= r < |runs| ==> Sorted(le, runs[r])
  }

  lemma {:induction false} BagHead<T>(runs: seq<seq<T>>, r: nat)
    requires r < |runs| && runs[r] != []
    ensures Bag(runs) == multiset{runs[r][0]} + Bag(runs[r := runs[r][1..]])
    ensures TotalLength(runs) == 1 + TotalLength(runs[r := runs[r][1..]])
  {
    var after := runs[r := runs[r][1..]];
    if r == 0 {
      assert runs[0] == [runs[0][0]] + runs[0][1..];
      assert after[1..] == runs[1..];
    } else {
      BagHead(runs[1..], r - 1);
      assert after[1..] == runs[1..][r - 1 := runs[r][1..]];
    }
  }

  lemma {:induction false} BagElement<T>(runs: seq<seq<T>>, x: T) returns (r: nat)
    requires x in Bag(runs)
    ensures r < |runs| && x in runs[r]
  {
    if x in runs[0] {
      r := 0;
    } else {
      r := BagElement(runs[1..], x);
      r := r + 1;
    }
  }

  lemma {:induction false} EmptyBag<T>(runs: seq<seq<T>>)
    requires forall r :: 0 <= r < |runs| ==> runs[r] == []
    ensures Bag(runs) == multiset{}
  {
    if runs != [] {
      EmptyBag(runs[1..]);
    }
  }

  /** The first run whose head is least, if any run is left. */
  method LeastHead<T(!new)>(le: (T, T) -> bool, runs: seq<seq<T>>) returns (r: nat)
    requires TotalOrder(le)
    ensures r <= |runs|
    ensures r == |runs| ==> forall k :: 0 <= k < |runs| ==> runs[k] == []
    ensures r < |runs| ==> runs[r] != []
    ensures r < |runs| ==> forall k :: 0 <= k < |runs| && runs[k] != [] ==> le(runs[r][0], runs[k][0])
  {
    r := |runs|;
    for i := 0 to |runs|
      invariant r <= |runs|
      invariant r == |runs| ==> forall k :: 0 <= k < i ==> runs[k] == []
      invariant r < |runs| ==> runs[r] != []
      invariant r < |runs| ==> forall k :: 0 <= k < i && runs[k] != [] ==> le(runs[r][0], runs[k][0])
    {
      if runs[i] != [] && (r == |runs| || !le(runs[r][0], runs[i][0])) {
        r := i;
      }
    }
  }

  lemma HeadIsLeast<T(!new)>(le: (T, T) -> bool, runs: seq<seq<T>>, r: nat, x: T)
    requires TotalOrder(le) && AllSorted(le, runs) && r < |runs| && runs[r] != [] && x in Bag(runs)
    requires forall k :: 0 <= k < |runs| && runs[k] != [] ==> le(runs[r][0], runs[k][0])
    ensures le(runs[r][0], x)
  {
    var k := BagElement(runs, x);
    var i :| 0 <= i < |runs[k]| && runs[k][i] == x;
    assert Sorted(le, runs[k]);
    assert le(runs[k][0], runs[k][i]);
  }

  /** Everything merged so far is sorted and precedes everything left. */
  ghost predicate Precedes<T(!new)>(le: (T, T) -> bool, merged: seq<T>, runs: seq<seq<T>>) {
    Sorted(le, merged) && forall i, x :: 0 <= i < |merged| && x in Bag(runs) ==> le(merged[i], x)
  }

  lemma TailsStaySorted<T(!new)>(le: (T, T) -> bool, runs: seq<seq<T>>, r: nat)
    requires AllSorted(le, runs) && r < |runs| && runs[r] != []
    ensures AllSorted(le, runs[r := runs[r][1..]])
  {
    var after := runs[r := runs[r][1..]];
    forall k | 0 <= k < |after| ensures Sorted(le, after[k]) {
      assert Sorted(le, runs[k]);
    }
  }

  lemma HeadPrecedes<T(!new)>(le: (T, T) -> bool, runs: seq<seq<T>>, r: nat)
    requires TotalOrder(le) && AllSorted(le, runs) && r < |runs| && runs[r] != []
    requires forall k :: 0 <= k < |runs| && runs[k] != [] ==> le(runs[r][0], runs[k][0])
    ensures runs[r][0] in Bag(runs) && forall x :: x in Bag(runs) ==> le(runs[r][0], x)
  {
    BagHead(runs, r);
    forall x | x in Bag(runs) ensures le(runs[r][0], x) {
      HeadIsLeast(le, runs, r, x);
    }
  }

  lemma MergeStep<T(!new)>(le: (T, T) -> bool, merged: seq<T>, runs: seq<seq<T>>, r: nat)
    requires TotalOrder(le) && AllSorted(le, runs) && r < |runs| && runs[r] != [] && Precedes(le, merged, runs)
    requires forall k :: 0 <= k < |runs| && runs[k] != [] ==> le(runs[r][0], runs[k][0])
    ensures Precedes(le, merged + [runs[r][0]], runs[r := runs[r][1..]])
  {
    hide TotalOrder, AllSorted, Bag;
    HeadPrecedes(le, runs, r);
    BagHead(runs, r);
    var head, after := runs[r][0], runs[r := runs[r][1..]];
    forall i, x | 0 <= i < |merged + [head]| && x in Bag(after) ensures le((merged + [head])[i], x) {
      assert x in Bag(runs);
    }
    assert forall i :: 0 <= i < |merged| ==> le(merged[i], head);
    assert Sorted(le, merged + [head]);
  }

  /** Merging sorted runs, always taking the least head: sorted, and nothing lost or added. */
  method MergeRuns<T(!new)>(le: (T, T) -> bool, runs: seq<seq<T>>) returns (merged: seq<T>)
    requires TotalOrder(le) && AllSorted(le, runs)
    ensures Sorted(le, merged) && multiset(merged) == Bag(runs)
  {
    hide TotalOrder, AllSorted, Sorted;
    merged := [];
    var rest := runs;
    NothingPrecedes(le, rest);
    while true
      invariant AllSorted(le, rest) && Precedes(le, merged, rest)
      invariant multiset(merged) + Bag(rest) == Bag(runs)
      decreases TotalLength(rest)
    {
      var r := LeastHead(le, rest);
      if r == |rest| {
        EmptyBag(rest);
        return;
      }
      BagHead(rest, r);
      MergeStep(le, merged, rest, r);
      TailsStaySorted(le, rest, r);
      merged := merged + [rest[r][0]];
      rest := rest[r := rest[r][1..]];
    }
  }

  lemma NothingPrecedes<T(!new)>(le: (T, T) -> bool, runs: seq<seq<T>>)
    ensures Precedes(le, [], runs)
  {
  }

  lemma {:induction false} BagAppend<T>(runs: seq<seq<T>>, run: seq<T>)
    ensures Bag(runs + [run]) == Bag(runs) + multiset(run)
  {
    if runs == [] {
      assert runs + [run] == [run];
      assert Bag([run][1..]) == multiset{};
    } else {
      assert (runs + [run])[1..] == runs[1..] + [run];
      BagAppend(runs[1..], run);
    }
  }

  lemma {:induction false} DistinctCount<T>(s: seq<T>, x: T)
    requires Distinct(s)
    ensures multiset(s)[x] <= 1
  {
    if s != [] {
      assert s == [s[0]] + s[1..];
      assert forall i :: 0 <= i < |s[1..]| ==> s[1..][i] == s[i + 1];
      DistinctCount(s[1..], x);
      if s[0] == x {
        assert x !in s[1..];
      }
    }
  }

  lemma RepeatCount<T>(s: seq<T>, i: nat, j: nat)
    requires i < j < |s| && s[i] == s[j]
    ensures multiset(s)[s[i]] >= 2
  {
    assert s == s[..j] + s[j..];
    assert s[..j][i] in multiset(s[..j]) && s[j..][0] in multiset(s[j..]);
  }

  /** Sorting a list without repetition gives an ascending list. */
  lemma SortedDistinctAscends<T(!new)>(le: (T, T) -> bool, sorted: seq<T>, s: seq<T>)
    requires Sorted(le, sorted) && Distinct(s) && multiset(sorted) == multiset(s)
    ensures Ascending(le, sorted) && Elements(sorted) == Elements(s)
  {
    forall i, j | 0 <= i < j < |sorted| ensures sorted[i] != sorted[j] {
      if sorted[i] == sorted[j] {
        RepeatCount(sorted, i, j);
        DistinctCount(s, sorted[i]);
      }
    }
    SameMultisetSameElements(sorted, s);
  }
}
