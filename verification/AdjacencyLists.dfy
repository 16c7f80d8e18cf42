/** The succinct adjacency list of the tdb_succinct library, by its abstract behaviour: an
    array of right-hand numbers with one bit each, the bit closing the group of a left-hand
    number. Left-hand numbers count from 1; a skipped one is a closed group holding a single
    zero, the stub. Bit-level packing is not part of this model. */
module AdjacencyLists {
  import opened Sorting

  /** The number of set bits before position `i`. */
  function Rank(bits: seq<bool>, i: nat): (r: nat)
    requires i <= |bits|
    ensures r <= i
  {
    if i == 0 then 0 else Rank(bits, i - 1) + (if bits[i - 1] then 1 else 0)
  }

  datatype AdjacencyList = AdjacencyList(nums: seq<nat>, bits: seq<bool>) {

    /** Every number has a bit, and the last group is closed. */
    ghost predicate Valid() {
      |nums| == |bits| && (|bits| > 0 ==> bits[|bits| - 1])
    }

    function RightCount(): nat {
      |nums|
    }

    function LeftCount(): nat {
      Rank(bits, |bits|)
    }

    /** The left-hand number whose group holds position `pos`. */
    function LeftAt(pos: nat): (l: nat)
      requires pos < |bits|
      ensures 1 <= l
    {
      Rank(bits, pos) + 1
    }

    function NumAt(pos: nat): nat
      requires pos < |nums|
    {
      nums[pos]
    }

    function BitAt(pos: nat): bool
      requires pos < |bits|
    {
      bits[pos]
    }

    function PairAt(pos: nat): (nat, nat)
      requires Valid() && pos < |nums|
    {
      (LeftAt(pos), nums[pos])
    }

    /** Position `pos` is the start of a group. */
    predicate StartsGroup(pos: nat)
      requires pos <= |bits|
    {
      pos == 0 || bits[pos - 1]
    }

    /** The start of the group of `left`; one past the last group is the right count. */
    function OffsetFor(left: nat): (pos: nat)
      requires Valid() && 1 <= left <= LeftCount() + 1
      ensures pos <= RightCount() && StartsGroup(pos) && Rank(bits, pos) == left - 1
    {
      FindOffset(bits, |bits|, left)
    }
  }

  /** Walks back from `i` to the start of the group of `left`. */
  function FindOffset(bits: seq<bool>, i: nat, left: nat): (pos: nat)
    requires i <= |bits| && 1 <= left <= Rank(bits, i) + 1
    ensures pos <= i && (pos == 0 || bits[pos - 1]) && Rank(bits, pos) == left - 1
  {
    if i == 0 || (bits[i - 1] && Rank(bits, i) == left - 1) then i
    else FindOffset(bits, i - 1, left)
  }

  /* ---- facts about Rank ---- */

  lemma {:induction false} RankMonotone(bits: seq<bool>, i: nat, j: nat)
    requires i <= j <= |bits|
    ensures Rank(bits, i) <= Rank(bits, j)
    ensures i < j && bits[j - 1] ==> Rank(bits, i) < Rank(bits, j)
    ensures Rank(bits, j) <= Rank(bits, i) + (j - i)
  {
    if i < j {
      RankMonotone(bits, i, j - 1);
    }
  }

  lemma RankNext(bits: seq<bool>, i: nat)
    requires i < |bits|
    ensures Rank(bits, i + 1) == Rank(bits, i) + (if bits[i] then 1 else 0)
  {
  }

  /** Two starts of the same group are the same position. */
  lemma StartIsUnique(bits: seq<bool>, i: nat, j: nat)
    requires i <= |bits| && j <= |bits| && Rank(bits, i) == Rank(bits, j)
    requires (i == 0 || bits[i - 1]) && (j == 0 || bits[j - 1])
    ensures i == j
  {
    if i < j {
      RankMonotone(bits, i, j);
    } else {
      RankMonotone(bits, j, i);
    }
  }

  /** A position within a valid list belongs to one of its groups. */
  lemma LeftInRange(a: AdjacencyList, pos: nat)
    requires a.Valid() && pos < |a.bits|
    ensures a.LeftAt(pos) <= a.LeftCount()
  {
    RankMonotone(a.bits, pos, |a.bits|);
  }

  /** Rank only looks at the bits before it. */
  lemma {:induction false} RankPrefix(a: seq<bool>, b: seq<bool>, i: nat)
    requires i <= |a| && i <= |b|
    requires forall k :: 0 <= k < i ==> a[k] == b[k]
    ensures Rank(a, i) == Rank(b, i)
  {
    if i > 0 {
      RankPrefix(a, b, i - 1);
    }
  }

  function Trues(n: nat): (r: seq<bool>)
    ensures |r| == n && forall k :: 0 <= k < n ==> r[k]
  {
    seq(n, _ => true)
  }

  function Zeros(n: nat): (r: seq<nat>)
    ensures |r| == n && forall k :: 0 <= k < n ==> r[k] == 0
  {
    seq(n, _ => 0)
  }

  lemma {:induction false} RankOverTrues(bits: seq<bool>, i: nat, n: nat)
    requires i + n <= |bits| && forall k :: i <= k < i + n ==> bits[k]
    ensures Rank(bits, i + n) == Rank(bits, i) + n
  {
    if n > 0 {
      RankOverTrues(bits, i, n - 1);
    }
  }

  /** Appends the pair `(left, right)` to a list whose last left-hand number is `lastLeft`. */
  function Pushed(a: AdjacencyList, lastLeft: nat, left: nat, right: nat): (r: AdjacencyList)
    requires a.Valid() && lastLeft <= left && (left == lastLeft ==> a.nums != [])
    ensures r.Valid() && |r.nums| == |a.nums| + (if left == lastLeft then 1 else left - lastLeft)
    ensures r.nums[|r.nums| - 1] == right
  {
    if left == lastLeft then
      AdjacencyList(a.nums + [right], a.bits[..|a.bits| - 1] + [false, true])
    else
      AdjacencyList(a.nums + Zeros(left - lastLeft - 1) + [right], a.bits + Trues(left - lastLeft))
  }

  /** The builder of an adjacency list. Its bits lag one entry behind its numbers: whether an
      entry closes its group is only known at the next push. */
  class AdjacencyListBuilder {
    var nums: seq<nat>
    var bits: seq<bool>
    var lastLeft: nat
    var lastRight: nat

    ghost predicate Valid()
      reads this
    {
      && (if nums == [] then bits == [] && lastLeft == 0 else |nums| == |bits| + 1 && lastLeft > 0)
      && View().LeftCount() == lastLeft
      && (nums != [] ==> nums[|nums| - 1] == lastRight)
    }

    /** The list that finalizing now would write. */
    ghost function View(): AdjacencyList
      reads this
    {
      AdjacencyList(nums, if nums == [] then bits else bits + [true])
    }

    constructor ()
      ensures Valid() && View() == AdjacencyList([], []) && lastLeft == 0
    {
      nums, bits, lastLeft, lastRight := [], [], 0, 0;
    }

    /** The number of bits written so far: one less than the number of entries. */
    function Count(): (n: nat)
      requires Valid()
      reads this
      ensures nums != [] ==> n + 1 == View().RightCount()
    {
      |bits|
    }

    method Push(left: nat, right: nat)
      requires Valid()
      requires lastLeft < left || (lastLeft == left && left > 0 && lastRight < right)
      modifies this
      ensures Valid() && lastLeft == left && lastRight == right
      ensures old(View()).Valid()
      ensures View() == Pushed(old(View()), old(lastLeft), left, right)
    {
      hide Pushed, Rank;
      ghost var before := View();
      PushedLeftCount(before, lastLeft, left, right);
      PushedParts(before, lastLeft, left, right);
      var skip := left - lastLeft;
      if lastLeft == 0 && skip == 1 {
        // the first entry: its bit is not known yet
      } else if skip == 0 {
        bits := bits + [false];
      } else {
        CloseGroups(if lastLeft == 0 then skip - 1 else skip, skip - 1);
      }
      nums := nums + [right];
      lastLeft, lastRight := left, right;
      assert View().nums == Pushed(before, old(lastLeft), left, right).nums;
      assert View().bits == Pushed(before, old(lastLeft), left, right).bits;
    }

    /** Closes the open group and writes the stubs of the left-hand numbers skipped. */
    method CloseGroups(bitskip: nat, stubs: nat)
      modifies this`nums, this`bits
      ensures bits == old(bits) + Trues(bitskip) && nums == old(nums) + Zeros(stubs)
    {
      assert bits + Trues(0) == bits && nums + Zeros(0) == nums;
      var i := 0;
      while i < bitskip
        invariant 0 <= i <= bitskip && bits == old(bits) + Trues(i) && nums == old(nums)
      {
        assert Trues(i + 1) == Trues(i) + [true];
        bits := bits + [true];
        i := i + 1;
      }
      i := 0;
      while i < stubs
        invariant 0 <= i <= stubs && nums == old(nums) + Zeros(i)
        invariant bits == old(bits) + Trues(bitskip)
      {
        assert Zeros(i + 1) == Zeros(i) + [0];
        nums := nums + [0];
        i := i + 1;
      }
    }

    /** Closes the last group. */
    method Finalize() returns (r: AdjacencyList)
      requires Valid()
      ensures r == View() && r.Valid()
    {
      r := AdjacencyList(nums, if |nums| != 0 then bits + [true] else bits);
    }
  }

  /** What a push appends: a number for the same group, or stubs and a new group. */
  lemma PushedParts(a: AdjacencyList, lastLeft: nat, left: nat, right: nat)
    requires a.Valid() && lastLeft <= left && (left == lastLeft ==> a.nums != [])
    ensures left == lastLeft ==>
      Pushed(a, lastLeft, left, right) == AdjacencyList(a.nums + [right], a.bits[..|a.bits| - 1] + [false, true])
    ensures left > lastLeft ==>
      Pushed(a, lastLeft, left, right) == AdjacencyList(a.nums + Zeros(left - lastLeft - 1) + [right],
      a.bits + Trues(left - lastLeft))
  {
  }

  lemma PushedLeftCount(a: AdjacencyList, lastLeft: nat, left: nat, right: nat)
    requires a.Valid() && lastLeft <= left && (left == lastLeft ==> a.nums != [])
    requires a.LeftCount() == lastLeft
    ensures Pushed(a, lastLeft, left, right).LeftCount() == left
  {
    var r := Pushed(a, lastLeft, left, right);
    var n := |a.bits|;
    if left == lastLeft {
      RankPrefix(a.bits, r.bits, n - 1);
      assert Rank(r.bits, n) == Rank(r.bits, n - 1);
    } else {
      RankPrefix(a.bits, r.bits, n);
      RankOverTrues(r.bits, n, left - lastLeft);
    }
  }
}
