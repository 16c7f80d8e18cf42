/** Rolling up to an ancestor, first half: how far down the loaded stack can be trusted. */
module RollupBounds {
  import opened Triples
  import opened InternalLayers
  import opened StringTriples
  import opened NetOfStacks
  import opened Stores

  /* ---- the names on disk ---- */

  /** The names from just above `upto` to `n`, lowest first; an error if `upto` is not below. */
  ghost function Chain(disk: Disk, n: Name, upto: Name): Option<seq<Name>>
    requires disk.Rooted() && n in disk.layers
    decreases disk.layers[n].created
  {
    assert disk.RootedAt(n);
    match disk.ParentOf(n)
    case None => None
    case Some(p) =>
      if p == upto then Some([n])
      else match Chain(disk, p, upto) case None => None case Some(names) => Some(names + [n])
  }

  /** `names` lead from a layer on `below` up to `n`, each the parent of the next; none but `n` itself
      may be the one they start above. */
  ghost predicate Linked(disk: Disk, names: seq<Name>, below: Option<Name>, n: Name) {
    && names != [] && names[|names| - 1] == n
    && (forall k :: 0 <= k < |names| ==> names[k] in disk.layers)
    && disk.ParentOf(names[0]) == below
    && (forall k :: 0 < k < |names| ==> disk.ParentOf(names[k]) == Some(names[k - 1]))
    && (forall k :: 0 <= k < |names| - 1 ==> below != Some(names[k]))
  }

  lemma {:induction false} ChainLinked(disk: Disk, n: Name, upto: Name)
    requires disk.Rooted() && n in disk.layers && Chain(disk, n, upto).Some?
    ensures Linked(disk, Chain(disk, n, upto).value, Some(upto), n)
    decreases disk.layers[n].created
  {
    assert disk.RootedAt(n);
    var p := disk.ParentOf(n).value;
    if p != upto {
      ChainLinked(disk, p, upto);
    }
  }

  lemma {:induction false} LinkedIsChain(disk: Disk, names: seq<Name>, upto: Name, n: Name)
    requires disk.Rooted() && Linked(disk, names, Some(upto), n)
    ensures n in disk.layers && Chain(disk, n, upto) == Some(names)
    decreases |names|
  {
    assert disk.RootedAt(n);
    var init := names[..|names| - 1];
    if init != [] {
      LinkedIsChain(disk, init, upto, init[|init| - 1]);
      assert names == init + [n];
    } else {
      assert names == [n];
    }
  }

  lemma {:induction false} LinkedUnique(disk: Disk, a: seq<Name>, b: seq<Name>, below: Option<Name>, n: Name)
    requires Linked(disk, a, below, n) && Linked(disk, b, below, n)
    ensures a == b
  {
    var a', b' := a[..|a| - 1], b[..|b| - 1];
    assert a' != [] ==> disk.ParentOf(n) == Some(a[|a| - 2]) && below != Some(a[|a| - 2]);
    assert b' != [] ==> disk.ParentOf(n) == Some(b[|b| - 2]) && below != Some(b[|b| - 2]);
    if a' != [] && b' != [] {
      LinkedUnique(disk, a', b', below, a'[|a'| - 1]);
    }
    assert a == a' + [n] && b == b' + [n];
  }

  /** The chain is linked, and nothing else is. */
  lemma ChainIsLinked(disk: Disk, name: Name, upto: Name)
    requires disk.Rooted() && name in disk.layers
    ensures Chain(disk, name, upto).Some? ==> Linked(disk, Chain(disk, name, upto).value, Some(upto), name)
    ensures Chain(disk, name, upto).None? ==> forall names :: !Linked(disk, names, Some(upto), name)
  {
    hide Linked;
    if Chain(disk, name, upto).Some? {
      ChainLinked(disk, name, upto);
    } else {
      forall names ensures !Linked(disk, names, Some(upto), name) {
        if Linked(disk, names, Some(upto), name) {
          LinkedIsChain(disk, names, upto, name);
        }
      }
    }
  }

  /** The names from just above `upto` to the layer, each the parent of the next, or none when no
      such names exist. */
  method StackNamesUpto(disk: Disk, name: Name, upto: Name) returns (r: Option<seq<Name>>)
    requires disk.Rooted() && name in disk.layers
    ensures r == Chain(disk, name, upto)
    ensures r.Some? ==> Linked(disk, r.value, Some(upto), name)
    ensures r.None? ==> forall names :: !Linked(disk, names, Some(upto), name)
  {
    hide Linked;
    ChainIsLinked(disk, name, upto);
    var result := [name];
    ghost var whole := Chain(disk, name, upto);
    assert whole.Some? ==> whole.value + result[1..] == whole.value;
    while true
      invariant result != [] && result[0] in disk.layers
      invariant Chain(disk, name, upto) == match Chain(disk, result[0],
        upto) case None => None case Some(names) => Some(names + result[1..])
      decreases disk.layers[result[0]].created
    {
      assert disk.RootedAt(result[0]);
      if disk.ParentOf(result[0]).None? {
        return None;
      }
      var parent := disk.ParentOf(result[0]).value;
      if parent == upto {
        assert [result[0]] + result[1..] == result;
        return Some(result);
      }
      ghost var below := Chain(disk, parent, upto);
      assert below.Some? ==> below.value + [result[0]] + result[1..] == below.value + result;
      result := [parent] + result;
    }
  }

  /** Every name on the chain has the rest of the chain below it. */
  lemma {:induction false} ChainBelow(disk: Disk, n: Name, upto: Name, x: Name)
    requires disk.Rooted() && n in disk.layers && Chain(disk, n, upto).Some? && x in Chain(disk, n, upto).value
    ensures x in disk.layers && Chain(disk, x, upto).Some? && upto in disk.layers
    decreases disk.layers[n].created
  {
    assert disk.RootedAt(n);
    var p := disk.ParentOf(n).value;
    if p != upto && x != n {
      ChainBelow(disk, p, upto, x);
    } else if p != upto {
      ChainEndsIn(disk, p, upto);
      ChainBelow(disk, p, upto, p);
    }
  }

  lemma ChainEndsIn(disk: Disk, n: Name, upto: Name)
    requires disk.Rooted() && n in disk.layers && Chain(disk, n, upto).Some?
    ensures n in Chain(disk, n, upto).value
  {
    assert disk.RootedAt(n);
  }

  /* ---- the bound ---- */

  function Position(names: seq<Name>, x: Name): (i: nat)
    requires x in names
    ensures i < |names| && names[i] == x && x !in names[..i]
  {
    if names[0] == x then 0 else
      var i := Position(names[1..], x) + 1;
      assert names[..i] == [names[0]] + names[1..][..i - 1];
      i
  }

  /** How far down the loaded stack agrees with the names on disk. */
  function Bound(names: seq<Name>, upto: Name, l: InternalLayer): Name
    decreases l.Size()
  {
    match l.ImmediateParent()
    case None => l.LayerName()
    case Some(p) =>
      if p.LayerName() == upto then upto
      else if p.LayerName() in names then Bound(names[..Position(names, p.LayerName())], upto, p)
      else l.LayerName()
  }

  /** `walk` goes down the loaded stack, parent by parent: every layer come to is not `upto` and is
      among the names below the one before, of which `at[k]` are left at the `k`-th layer. */
  ghost predicate Walk(names: seq<Name>, upto: Name, layer: InternalLayer, walk: seq<InternalLayer>, at: seq<nat>) {
    && |walk| == |at| > 0 && walk[0] == layer && at[0] == |names|
    && (forall k :: 0 <= k < |at| ==> at[k] <= |names|)
    && (forall k :: 0 < k < |walk| ==> WalkStep(names, upto, walk[k - 1], at[k - 1], walk[k], at[k]))
  }

  /** From a layer to its loaded parent, which is on disk below it and above `upto`. */
  ghost predicate WalkStep(names: seq<Name>, upto: Name, l: InternalLayer, left: nat, p: InternalLayer, i: nat) {
    l.ImmediateParent() == Some(p) && p.LayerName() != upto && i < left && FirstAt(names, p.LayerName(), i)
  }

  ghost predicate FirstAt(names: seq<Name>, x: Name, i: nat) {
    i < |names| && names[i] == x && forall j :: 0 <= j < i ==> names[j] != x
  }

  lemma FirstAtUnique(names: seq<Name>, x: Name, i: nat, j: nat)
    requires FirstAt(names, x, i) && FirstAt(names, x, j)
    ensures i == j
  {
  }

  /** The walk cannot go on from `l`: it has reached `upto`, or there is no loaded parent among the
      names left, and the last usable layer is `l`. */
  ghost predicate WalkEnds(left: seq<Name>, upto: Name, l: InternalLayer, r: Name) {
    match l.ImmediateParent()
    case None => r == l.LayerName()
    case Some(p) => if p.LayerName() == upto then r == upto else p.LayerName() !in left && r == l.LayerName()
  }

  ghost predicate WalkTo(names: seq<Name>, upto: Name, layer: InternalLayer, walk: seq<InternalLayer>, at: seq<nat>,
      r: Name) {
    Walk(names, upto, layer, walk, at) && WalkEnds(names[..at[|at| - 1]], upto, walk[|walk| - 1], r)
  }

  /** `r` is where the walk ends: memory and disk agree no further down. */
  ghost predicate LowestSafe(names: seq<Name>, upto: Name, layer: InternalLayer, r: Name) {
    exists walk, at :: WalkTo(names, upto, layer, walk, at, r)
  }

  lemma {:induction false} WalksAgree(names: seq<Name>, upto: Name, layer: InternalLayer, walk: seq<InternalLayer>,
      at: seq<nat>, walk': seq<InternalLayer>, at': seq<nat>, k: nat)
    requires Walk(names, upto, layer, walk, at) && Walk(names, upto, layer, walk', at')
    requires k < |walk| && k < |walk'|
    ensures walk[k] == walk'[k] && at[k] == at'[k]
  {
    if k > 0 {
      WalksAgree(names, upto, layer, walk, at, walk', at', k - 1);
      FirstAtUnique(names, walk[k].LayerName(), at[k], at'[k]);
    }
  }

  lemma WalkStops(names: seq<Name>, upto: Name, layer: InternalLayer, walk: seq<InternalLayer>, at: seq<nat>,
      walk': seq<InternalLayer>, at': seq<nat>, r: Name)
    requires WalkTo(names, upto, layer, walk, at, r) && Walk(names, upto, layer, walk', at')
    ensures |walk'| <= |walk|
  {
    if |walk'| > |walk| {
      WalksAgree(names, upto, layer, walk, at, walk', at', |walk| - 1);
      var k := |walk|;
      assert WalkStep(names, upto, walk'[k - 1], at'[k - 1], walk'[k], at'[k]);
      assert false by { Within(names, at[|walk| - 1], at'[|walk|]); }
    }
  }

  lemma Within(names: seq<Name>, n: nat, i: nat)
    requires i < n <= |names|
    ensures names[i] in names[..n]
  {
    assert names[..n][i] == names[i];
  }

  /** There is only one such place. In particular it is `upto` as soon as the loaded ancestors down
      to it are all on the chain on disk, in its order. */
  lemma LowestSafeUnique(names: seq<Name>, upto: Name, layer: InternalLayer, a: Name, b: Name)
    requires LowestSafe(names, upto, layer, a) && LowestSafe(names, upto, layer, b)
    ensures a == b
  {
    var walk, at :| WalkTo(names, upto, layer, walk, at, a);
    var walk', at' :| WalkTo(names, upto, layer, walk', at', b);
    SameEnd(names, upto, layer, walk, at, walk', at', a, b);
  }

  lemma SameEnd(names: seq<Name>, upto: Name, layer: InternalLayer, walk: seq<InternalLayer>, at: seq<nat>,
      walk': seq<InternalLayer>, at': seq<nat>, a: Name, b: Name)
    requires WalkTo(names, upto, layer, walk, at, a) && WalkTo(names, upto, layer, walk', at', b)
    ensures a == b
  {
    WalkStops(names, upto, layer, walk, at, walk', at', a);
    WalkStops(names, upto, layer, walk', at', walk, at, b);
    WalksAgree(names, upto, layer, walk, at, walk', at', |walk| - 1);
  }

  /** The result is `upto` exactly when the loaded ancestors down to it are all on the chain. */
  lemma ReachesUptoIff(names: seq<Name>, upto: Name, layer: InternalLayer, r: Name)
    requires layer.LayerName() != upto && LowestSafe(names, upto, layer, r)
    ensures r == upto <==> exists walk, at :: WalkAbove(names, upto, layer, walk, at)
  {
    if walk, at :| WalkAbove(names, upto, layer, walk, at) {
      assert WalkTo(names, upto, layer, walk, at, upto);
      LowestSafeUnique(names, upto, layer, r, upto);
    }
    if r == upto {
      var walk, at :| WalkTo(names, upto, layer, walk, at, r);
      var k := |walk| - 1;
      assert k > 0 ==> WalkStep(names, upto, walk[k - 1], at[k - 1], walk[k], at[k]);
      assert WalkAbove(names, upto, layer, walk, at);
    }
  }

  /** A walk whose last layer has `upto` as its loaded parent. */
  ghost predicate WalkAbove(names: seq<Name>, upto: Name, layer: InternalLayer, walk: seq<InternalLayer>, at: seq<nat>)
  {
    Walk(names, upto, layer, walk, at) && var p := walk[|walk| - 1].ImmediateParent();
      p.Some? && p.value.LayerName() == upto
  }

  lemma WalkStarts(names: seq<Name>, upto: Name, layer: InternalLayer)
    ensures Walk(names, upto, layer, [layer], [|names|]) && names[..|names|] == names
  {
  }

  lemma WalkOn(names: seq<Name>, upto: Name, layer: InternalLayer, walk: seq<InternalLayer>, at: seq<nat>,
      p: InternalLayer)
    requires Walk(names, upto, layer, walk, at) && walk[|walk| - 1].ImmediateParent() == Some(p)
    requires p.LayerName() != upto && p.LayerName() in names[..at[|at| - 1]]
    ensures |at| > 0 && at[|at| - 1] <= |names|
    ensures var i := Position(names[..at[|at| - 1]], p.LayerName());
      Walk(names, upto, layer, walk + [p], at + [i]) && i <= |names| && names[..at[|at| - 1]][..i] == names[..i]
  {
    hide WalkStep;
    var left := names[..at[|at| - 1]];
    var i := Position(left, p.LayerName());
    assert left[..i] == names[..i] && left[i] == names[i];
    StepOn(names, upto, walk[|walk| - 1], at[|at| - 1], p, i);
    var walk', at' := walk + [p], at + [i];
    forall k | 0 < k < |walk'| ensures WalkStep(names, upto, walk'[k - 1], at'[k - 1], walk'[k], at'[k]) {
      if k < |walk| {
        assert WalkStep(names, upto, walk[k - 1], at[k - 1], walk[k], at[k]);
      }
    }
  }

  lemma StepOn(names: seq<Name>, upto: Name, l: InternalLayer, left: nat, p: InternalLayer, i: nat)
    requires l.ImmediateParent() == Some(p) && p.LayerName() != upto && i < left <= |names|
    requires names[i] == p.LayerName() && p.LayerName() !in names[..i]
    ensures WalkStep(names, upto, l, left, p, i)
  {
    forall j | 0 <= j < i ensures names[j] != p.LayerName() {
      assert names[..i][j] == names[j];
    }
  }

  /** Walks down the loaded stack as long as its layers are on disk above `upto`: the result is
      where that walk ends. */
  method SafeUptoBound(disk: Disk, layer: InternalLayer, upto: Name) returns (r: Option<Name>)
    requires disk.Rooted() && layer.LayerName() in disk.layers
    ensures layer.LayerName() == upto ==> r == Some(upto)
    ensures layer.LayerName() != upto && r.None? ==>
      forall names :: !Linked(disk, names, Some(upto), layer.LayerName())
    ensures layer.LayerName() != upto && r.Some? ==>
      exists names :: Linked(disk, names, Some(upto), layer.LayerName()) && LowestSafe(names, upto, layer, r.value)
    ensures layer.LayerName() != upto ==>
      r == match Chain(disk, layer.LayerName(), upto) case None => None case Some(names) => Some(Bound(names, upto,
      layer))
  {
    hide Linked, Walk, Disk.Rooted;
    if layer.LayerName() == upto {
      return Some(upto);
    }
    var found := StackNamesUpto(disk, layer.LayerName(), upto);
    if found.None? {
      return None;
    }
    var names := found.value;
    var l := layer;
    ghost var walk: seq<InternalLayer>, at: seq<nat> := [layer], [|names|];
    WalkStarts(names, upto, layer);
    while true
      invariant Bound(found.value, upto, layer) == Bound(names, upto, l)
      invariant Walk(found.value, upto, layer, walk, at) && walk != [] && l == walk[|walk| - 1]
      invariant at != [] && at[|at| - 1] <= |found.value| && names == found.value[..at[|at| - 1]]
      decreases l.Size()
    {
      match l.ImmediateParent() {
        case None =>
          assert WalkTo(found.value, upto, layer, walk, at, l.LayerName());
          return Some(l.LayerName());
        case Some(parent) =>
          if parent.LayerName() == upto {
            assert WalkTo(found.value, upto, layer, walk, at, upto);
            return Some(upto);
          } else if parent.LayerName() in names {
            WalkOn(found.value, upto, layer, walk, at, parent);
            walk, at := walk + [parent], at + [Position(names, parent.LayerName())];
            names := names[..Position(names, parent.LayerName())];
            l := parent;
          } else {
            assert WalkTo(found.value, upto, layer, walk, at, l.LayerName());
            return Some(l.LayerName());
          }
      }
    }
  }

  /** There is nothing usable directly below the loaded layer. */
  predicate Blocked(names: seq<Name>, upto: Name, l: InternalLayer) {
    match l.ImmediateParent() case None => true case Some(p) => p.LayerName() != upto && p.LayerName() !in names
  }

  lemma FaithfulParent(disk: Disk, l: InternalLayer)
    requires disk.Sound() && Faithful(disk, l.LayerName(), l)
    ensures l.LayerName() in disk.layers
    ensures l.ImmediateParent().Some? ==> var p := l.ImmediateParent().value;
      p.LayerName() in disk.layers && disk.layers[p.LayerName()].created < disk.layers[l.LayerName()].created &&
      Faithful(disk, p.LayerName(), p)
  {
    hide Grounded, InternalLayer.TripleSet, TablesOf;
    SoundAt(disk, l.LayerName());
  }

  lemma {:induction false} AncestorFaithful(disk: Disk, l: InternalLayer, name: Name)
    requires disk.Sound() && Faithful(disk, l.LayerName(), l) && Ancestor(l, name).Some?
    ensures Ancestor(l, name).value.LayerName() == name && Faithful(disk, name, Ancestor(l, name).value)
    decreases l.Size()
  {
    hide Disk.Sound, Faithful;
    FaithfulParent(disk, l);
    var p := l.ImmediateParent().value;
    if p.LayerName() != name {
      AncestorFaithful(disk, p, name);
    }
  }

  /** The bound is the layer itself or one of its loaded ancestors. */
  lemma {:induction false} BoundIsAbove(disk: Disk, names: seq<Name>, upto: Name, l: InternalLayer)
    requires disk.Sound() && Faithful(disk, l.LayerName(), l)
    ensures var b := Bound(names, upto, l);
      && l.LayerName() in disk.layers && b in disk.layers &&
        disk.layers[b].created <= disk.layers[l.LayerName()].created
      && (b == upto || b in names || b == l.LayerName())
    ensures !Blocked(names, upto, l) ==> var b := Bound(names, upto, l);
      b in disk.layers && disk.layers[b].created < disk.layers[l.LayerName()].created && Ancestor(l, b).Some?
    decreases l.Size()
  {
    hide Disk.Sound, Faithful;
    FaithfulParent(disk, l);
    if !Blocked(names, upto, l) {
      var p := l.ImmediateParent().value;
      FaithfulParent(disk, p);
      if p.LayerName() != upto {
        var i := Position(names, p.LayerName());
        BoundIsAbove(disk, names[..i], upto, p);
        assert forall x :: x in names[..i] ==> x in names;
      }
    }
  }

  /** What the bound is good for: it is `upto` or lies above it on disk, and it is the layer's
      own name, about which nothing can be said, exactly when the loaded stack has nothing usable
      directly below the layer. Otherwise it is a loaded ancestor. */
  lemma BoundIsSafe(disk: Disk, upto: Name, layer: InternalLayer, names: seq<Name>)
    requires disk.Sound() && Faithful(disk, layer.LayerName(), layer) && layer.LayerName() in disk.layers
    requires Chain(disk, layer.LayerName(), upto) == Some(names)
    ensures var b := Bound(names, upto, layer);
      && upto in disk.layers && b in disk.layers && (b == upto || Chain(disk, b, upto).Some?)
      && (b == layer.LayerName() <==> Blocked(names, upto, layer))
      && (!Blocked(names, upto, layer) ==> Ancestor(layer, b).Some? && Faithful(disk, b, Ancestor(layer, b).value))
  {
    hide Disk.Sound, Faithful;
    SoundIsRooted(disk);
    BoundIsAbove(disk, names, upto, layer);
    ChainEndsIn(disk, layer.LayerName(), upto);
    ChainBelow(disk, layer.LayerName(), upto, layer.LayerName());
    var b := Bound(names, upto, layer);
    if b != upto {
      ChainBelow(disk, layer.LayerName(), upto, b);
    }
    if !Blocked(names, upto, layer) {
      AncestorFaithful(disk, layer, b);
    }
  }

  /** A layer that is loaded as a rolled-up base layer cannot be rolled up to any ancestor: the
      bound is the layer itself, and reading the layers above it fails. */
  lemma RolledUpToBaseIsBlocked(l: InternalLayer, base: InternalLayer, n: Name, p: Option<Name>, names: seq<Name>,
      upto: Name)
    requires base.Base? && l == Rollup(base, n, p)
    ensures Bound(names, upto, l) == n == l.LayerName() && Blocked(names, upto, l)
  {
  }
}
