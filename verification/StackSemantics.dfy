/** What a stack of layers means: every layer removes from, then adds to, the triples of
    the layers below it. Index 0 is the topmost layer, as in the iterator vectors. */
module StackSemantics {
  import opened Triples

  datatype Delta = Delta(pos: set<Triple>, neg: set<Triple>)

  type Stack = seq<Delta>

  function Fold(stack: Stack): set<Triple> {
    if stack == [] then {} else (Fold(stack[1..]) - stack[0].neg) + stack[0].pos
  }

  /** Every layer adds only what is absent below it and removes only what is present. */
  ghost predicate WellFormed(stack: Stack) {
    stack == [] ||
    (&& WellFormed(stack[1..])
     && stack[0].pos !! Fold(stack[1..])
     && stack[0].neg <= Fold(stack[1..]))
  }

  /** `stack` without `t` among the additions of layer `i`. */
  function DropAddition(stack: Stack, i: nat, t: Triple): (r: Stack)
    requires i < |stack|
    ensures |r| == |stack|
  {
    stack[i := Delta(stack[i].pos - {t}, stack[i].neg)]
  }

  /** `stack` without `t` among the removals of layer `j`. */
  function DropRemoval(stack: Stack, j: nat, t: Triple): (r: Stack)
    requires j < |stack|
    ensures |r| == |stack|
  {
    stack[j := Delta(stack[j].pos, stack[j].neg - {t})]
  }

  /** Layer `i` is the topmost layer adding `t`. */
  predicate TopmostAddition(stack: Stack, i: nat, t: Triple) {
    && i < |stack| && t in stack[i].pos
    && forall k :: 0 <= k < i ==> t !in stack[k].pos
  }

  /** An addition that no higher layer removes is part of the stack, and taking it out of the
      queue leaves a well-formed stack without it. */
  lemma {:induction false} YieldStep(stack: Stack, i: nat, t: Triple)
    requires WellFormed(stack) && TopmostAddition(stack, i, t)
    requires forall j :: 0 <= j < i ==> t !in stack[j].neg
    ensures t in Fold(stack)
    ensures WellFormed(DropAddition(stack, i, t))
    ensures Fold(DropAddition(stack, i, t)) == Fold(stack) - {t}
  {
    var below := stack[1..];
    var after := DropAddition(stack, i, t);
    if i == 0 {
      assert after[1..] == below;
    } else {
      assert TopmostAddition(below, i - 1, t);
      YieldStep(below, i - 1, t);
      assert after[1..] == DropAddition(below, i - 1, t);
      assert after[0] == stack[0];
    }
  }

  /** An addition removed by the layer `j` above it cancels against that removal: the queue
      stays a well-formed stack with the same meaning. */
  lemma {:induction false} CancelStep(stack: Stack, i: nat, j: nat, t: Triple)
    requires WellFormed(stack) && TopmostAddition(stack, i, t)
    requires j < i && t in stack[j].neg
    requires forall k :: 0 <= k < j ==> t !in stack[k].neg
    ensures t !in Fold(stack)
    ensures WellFormed(DropAddition(DropRemoval(stack, j, t), i, t))
    ensures Fold(DropAddition(DropRemoval(stack, j, t), i, t)) == Fold(stack)
  {
    var below := stack[1..];
    var after := DropAddition(DropRemoval(stack, j, t), i, t);
    assert TopmostAddition(below, i - 1, t);
    if j == 0 {
      assert t in Fold(below);
      NotRemovedAbove(below, i - 1, t);
      YieldStep(below, i - 1, t);
      assert after[1..] == DropAddition(below, i - 1, t);
      assert after[0] == Delta(stack[0].pos, stack[0].neg - {t});
    } else {
      CancelStep(below, i - 1, j - 1, t);
      assert after[1..] == DropAddition(DropRemoval(below, j - 1, t), i - 1, t);
      assert after[0] == stack[0];
    }
  }

  /** A triple of the stack is not removed above its topmost addition. */
  lemma {:induction false} NotRemovedAbove(stack: Stack, i: nat, t: Triple)
    requires WellFormed(stack) && TopmostAddition(stack, i, t) && t in Fold(stack)
    ensures forall j :: 0 <= j < i ==> t !in stack[j].neg
  {
    if i > 0 {
      assert TopmostAddition(stack[1..], i - 1, t);
      assert t !in stack[0].pos;
      NotRemovedAbove(stack[1..], i - 1, t);
      forall j | 0 <= j < i ensures t !in stack[j].neg {
        if j > 0 {
          assert stack[j] == stack[1..][j - 1];
        }
      }
    }
  }

  /** What a layer removes, some lower layer adds: no removal outlives its addition. */
  lemma {:induction false} FoldIsAdded(stack: Stack, t: Triple) returns (i: nat)
    requires t in Fold(stack)
    ensures TopmostAddition(stack, i, t)
    ensures forall j :: 0 <= j < i ==> t !in stack[j].neg
  {
    if t in stack[0].pos {
      i := 0;
    } else {
      i := FoldIsAdded(stack[1..], t);
      forall j | 0 <= j < i + 1 ensures t !in stack[j].neg && t !in stack[j].pos {
        if j > 0 {
          assert stack[j] == stack[1..][j - 1];
        }
      }
      i := i + 1;
    }
  }

  /** An addition that no higher layer removes is part of the stack, whatever lies between. */
  lemma {:induction false} AddedNotRemoved(stack: Stack, i: nat, t: Triple)
    requires i < |stack| && t in stack[i].pos && forall j :: 0 <= j < i ==> t !in stack[j].neg
    ensures t in Fold(stack)
  {
    if i > 0 {
      assert stack[i] == stack[1..][i - 1];
      forall j | 0 <= j < i - 1 ensures t !in stack[1..][j].neg {
        assert stack[1..][j] == stack[j + 1];
      }
      AddedNotRemoved(stack[1..], i - 1, t);
    }
  }

  lemma {:induction false} RemovalHasAddition(stack: Stack, j: nat, t: Triple) returns (i: nat)
    requires WellFormed(stack) && j < |stack| && t in stack[j].neg
    ensures j < i < |stack| && t in stack[i].pos
  {
    if j == 0 {
      var k := FoldIsAdded(stack[1..], t);
      i := k + 1;
    } else {
      assert stack[j] == stack[1..][j - 1];
      i := RemovalHasAddition(stack[1..], j - 1, t);
      i := i + 1;
    }
  }

  /** Looking for the first layer, from the top, that mentions a triple decides membership. */
  lemma {:induction false} FirstMentionDecides(stack: Stack, i: nat, t: Triple)
    requires WellFormed(stack) && i < |stack|
    requires forall k :: 0 <= k < i ==> t !in stack[k].pos && t !in stack[k].neg
    ensures t in stack[i].pos ==> t in Fold(stack)
    ensures t in stack[i].neg ==> t !in Fold(stack)
  {
    if i > 0 {
      assert stack[i] == stack[1..][i - 1];
      forall k | 0 <= k < i - 1 ensures t !in stack[1..][k].pos && t !in stack[1..][k].neg {
        assert stack[1..][k] == stack[k + 1];
      }
      FirstMentionDecides(stack[1..], i - 1, t);
      assert t !in stack[0].pos && t !in stack[0].neg;
    }
  }

  /* ---- restricting a stack to a region of triples ---- */

  function RestrictDelta(d: Delta, keep: Triple -> bool): Delta {
    Delta(set t | t in d.pos && keep(t), set t | t in d.neg && keep(t))
  }

  function Restrict(stack: Stack, keep: Triple -> bool): (r: Stack)
    ensures |r| == |stack|
    ensures forall i :: 0 <= i < |r| ==> r[i] == RestrictDelta(stack[i], keep)
  {
    if stack == [] then [] else [RestrictDelta(stack[0], keep)] + Restrict(stack[1..], keep)
  }

  /** Queries that only look at one region of the triples see a well-formed stack there. */
  lemma {:induction false} RestrictFold(stack: Stack, keep: Triple -> bool)
    ensures Fold(Restrict(stack, keep)) == set t | t in Fold(stack) && keep(t)
    ensures WellFormed(stack) ==> WellFormed(Restrict(stack, keep))
  {
    if stack != [] {
      RestrictFold(stack[1..], keep);
      assert Restrict(stack, keep)[1..] == Restrict(stack[1..], keep);
    }
  }

  /* ---- counting: additions minus removals ---- */

  function Additions(stack: Stack): nat {
    if stack == [] then 0 else |stack[0].pos| + Additions(stack[1..])
  }

  function Removals(stack: Stack): nat {
    if stack == [] then 0 else |stack[0].neg| + Removals(stack[1..])
  }

  /** The size of a stack is its additions less its removals, which never underflows. */
  lemma {:induction false} CountIsSize(stack: Stack)
    requires WellFormed(stack)
    ensures Additions(stack) == |Fold(stack)| + Removals(stack)
  {
    if stack != [] {
      CountIsSize(stack[1..]);
      var below := Fold(stack[1..]);
      assert below == (below - stack[0].neg) + stack[0].neg;
      assert |below| == |below - stack[0].neg| + |stack[0].neg|;
    }
  }

  /* ---- net change between a layer and one of its ancestors ---- */

  function CountAdditions(stack: Stack, t: Triple): nat {
    if stack == [] then 0
    else (if t in stack[0].pos then 1 else 0) + CountAdditions(stack[1..], t)
  }

  function CountRemovals(stack: Stack, t: Triple): nat {
    if stack == [] then 0
    else (if t in stack[0].neg then 1 else 0) + CountRemovals(stack[1..], t)
  }

  function Has(s: set<Triple>, t: Triple): int {
    if t in s then 1 else 0
  }

  /** Counted per triple, the layers above an ancestor add exactly the difference between the
      top of the stack and that ancestor. */
  lemma {:induction false} NetChange(above: Stack, ancestor: Stack, t: Triple)
    requires WellFormed(above + ancestor)
    ensures CountAdditions(above, t) - CountRemovals(above, t)
         == Has(Fold(above + ancestor), t) - Has(Fold(ancestor), t)
  {
    if above == [] {
      assert above + ancestor == ancestor;
    } else {
      assert (above + ancestor)[1..] == above[1..] + ancestor;
      NetChange(above[1..], ancestor, t);
    }
  }

  lemma {:induction false} CountsAppend(a: Stack, b: Stack, t: Triple)
    ensures CountAdditions(a + b, t) == CountAdditions(a, t) + CountAdditions(b, t)
    ensures CountRemovals(a + b, t) == CountRemovals(a, t) + CountRemovals(b, t)
  {
    if a == [] {
      assert a + b == b;
    } else {
      assert (a + b)[1..] == a[1..] + b;
      CountsAppend(a[1..], b, t);
    }
  }

  /** The lower layers of a well-formed stack are one. */
  lemma {:induction false} WellFormedSuffix(above: Stack, ancestor: Stack)
    requires WellFormed(above + ancestor)
    ensures WellFormed(ancestor)
  {
    if above == [] {
      assert above + ancestor == ancestor;
    } else {
      assert (above + ancestor)[1..] == above[1..] + ancestor;
      WellFormedSuffix(above[1..], ancestor);
    }
  }
}
