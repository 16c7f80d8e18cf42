/** A loaded layer and the stack below it: what it means, and the accessors that walk it. */
module InternalLayers {
  import opened Sorting
  import opened Triples
  import opened StackSemantics
  import opened TripleIndexes
  import opened ObjectIndexes
  import opened Dictionaries

  type Name = nat

  /** A base layer, a child of a loaded parent, or a rollup: another loaded layer standing in
      for an original one, whose name and parent name it keeps. */
  datatype InternalLayer =
    | Base(name: Name, dict: Dictionary, triples: ObjectIndex)
    | Child(name: Name, parent: InternalLayer, dict: Dictionary, pos: ObjectIndex, neg: ObjectIndex)
    | Rollup(internal: InternalLayer, original: Name, originalParent: Option<Name>)
  {
    function LayerName(): Name {
      match this
      case Base(name, _, _) => name
      case Child(name, _, _, _, _) => name
      case Rollup(_, original, _) => original
    }

    function ParentName(): Option<Name> {
      match this
      case Base(_, _, _) => None
      case Child(_, parent, _, _, _) => Some(parent.LayerName())
      case Rollup(_, _, originalParent) => originalParent
    }

    function Size(): nat {
      match this
      case Base(_, _, _) => 1
      case Child(_, parent, _, _, _) => 1 + parent.Size()
      case Rollup(internal, _, _) => 1 + internal.Size()
    }

    function ImmediateParent(): (p: Option<InternalLayer>)
      ensures p.Some? ==> p.value.Size() < Size()
    {
      match this
      case Base(_, _, _) => None
      case Child(_, parent, _, _, _) => Some(parent)
      case Rollup(internal, _, _) => internal.ImmediateParent()
    }

    function Dict(): Dictionary {
      match this
      case Base(_, dict, _) => dict
      case Child(_, _, dict, _, _) => dict
      case Rollup(internal, _, _) => internal.Dict()
    }

    function Additions(): ObjectIndex {
      match this
      case Base(_, _, triples) => triples
      case Child(_, _, _, pos, _) => pos
      case Rollup(internal, _, _) => internal.Additions()
    }

    /** A base layer has no removals. */
    function Removals(): Option<ObjectIndex> {
      match this
      case Base(_, _, _) => None
      case Child(_, _, _, _, neg) => Some(neg)
      case Rollup(internal, _, _) => internal.Removals()
    }

    /** The indexes of the stack, topmost first. */
    ghost function Indexes(): (r: seq<LayerIndex>)
      ensures |r| > 0
      decreases Size()
    {
      [LayerIndex(Additions(), Removals())] +
      (match ImmediateParent() case None => [] case Some(p) => p.Indexes())
    }

    /** What each layer of the stack adds and removes, topmost first. */
    ghost function Deltas(): Stack
      requires Coherent()
    {
      DeltasOf(Indexes())
    }

    ghost predicate Coherent() {
      AllCoherent(Indexes())
    }

    /** The layer is well formed: its indexes are coherent, only additions and removals of
        child layers are sparse, and every layer changes only what it may change. */
    ghost predicate Valid() {
      Coherent() && WellFormed(Deltas())
    }

    /** The triples of the layer. */
    ghost function TripleSet(): set<Triple>
      requires Valid()
    {
      Fold(Deltas())
    }
  }

  datatype LayerIndex = LayerIndex(pos: ObjectIndex, neg: Option<ObjectIndex>) {
    ghost predicate Coherent() {
      && pos.Coherent() && (neg.Some? ==> neg.value.Coherent())
      && (neg.Some? ==> pos.x.subjects.Some? && neg.value.x.subjects.Some?)
    }

    ghost function AsDelta(): Delta
      requires Coherent()
    {
      Delta(Elements(pos.x.Listing()), match neg case None => {} case Some(n) => Elements(n.x.Listing()))
    }
  }

  ghost predicate AllCoherent(indexes: seq<LayerIndex>) {
    forall i :: 0 <= i < |indexes| ==> indexes[i].Coherent()
  }

  ghost function DeltasOf(indexes: seq<LayerIndex>): (stack: Stack)
    requires AllCoherent(indexes)
    ensures |stack| == |indexes| && forall i :: 0 <= i < |stack| ==> stack[i] == indexes[i].AsDelta()
  {
    seq(|indexes|, i requires 0 <= i < |indexes| => indexes[i].AsDelta())
  }
}
