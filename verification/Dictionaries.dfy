/** Dictionary entries and their orders, id maps, and the ids a layer's dictionary gives out. */
module Dictionaries {
  import opened Sorting
  import opened Triples

  newtype byte = b: int | 0 <= b < 256

  /** A dictionary string, as the bytes it is ordered by. */
  type Str = seq<byte>

  predicate StrLe(a: Str, b: Str) {
    a == [] || (b != [] && (a[0] < b[0] || (a[0] == b[0] && StrLe(a[1..], b[1..]))))
  }

  /** What an object id can stand for: a node, or a value of some datatype in its order-preserving
      encoding. */
  datatype Entry = Node(str: Str) | Value(kind: nat, str: Str)

  /** Nodes before values, values by datatype and then by their encoding. */
  predicate EntryLe(a: Entry, b: Entry) {
    match (a, b)
    case (Node(x), Node(y)) => StrLe(x, y)
    case (Node(_), Value(_, _)) => true
    case (Value(_, _), Node(_)) => false
    case (Value(k, x), Value(m, y)) => k < m || (k == m && StrLe(x, y))
  }

  lemma {:induction false} StrOrder(a: Str, b: Str, c: Str)
    ensures StrLe(a, a)
    ensures StrLe(a, b) || StrLe(b, a)
    ensures StrLe(a, b) && StrLe(b, a) ==> a == b
    ensures StrLe(a, b) && StrLe(b, c) ==> StrLe(a, c)
  {
    if a != [] {
      var b', c' := if b == [] then [] else b[1..], if c == [] then [] else c[1..];
      StrOrder(a[1..], b', c');
    }
  }

  /** At index `k` the strings part: `a` ends there, or has the smaller byte. */
  predicate PartsAt(a: Str, b: Str, k: nat) {
    k <= |a| && k <= |b| && a[..k] == b[..k] && (k == |a| || (k < |b| && a[k] < b[k]))
  }

  /** The order of strings is that of their bytes, a prefix first. */
  lemma {:induction false} StrLeIff(a: Str, b: Str)
    ensures StrLe(a, b) <==> exists k: nat :: PartsAt(a, b, k)
  {
    if a == [] {
      assert PartsAt(a, b, 0);
    } else if b != [] {
      StrLeIff(a[1..], b[1..]);
      if a[0] < b[0] {
        assert PartsAt(a, b, 0);
      } else if a[0] == b[0] && StrLe(a[1..], b[1..]) {
        var k: nat :| PartsAt(a[1..], b[1..], k);
        assert a[..k + 1] == [a[0]] + a[1..][..k] && b[..k + 1] == [b[0]] + b[1..][..k];
        assert PartsAt(a, b, k + 1);
      }
      if k: nat :| PartsAt(a, b, k) {
        if k > 0 {
          PartsLater(a, b, k);
        }
      }
    }
  }

  lemma PartsLater(a: Str, b: Str, k: nat)
    requires k > 0 && PartsAt(a, b, k)
    ensures a != [] && b != [] && a[0] == b[0] && PartsAt(a[1..], b[1..], k - 1)
  {
    assert a[..k][0] == b[..k][0];
    assert a[1..][..k - 1] == a[..k][1..] && b[1..][..k - 1] == b[..k][1..];
  }

  /** Nodes come before values, values go by datatype first. */
  lemma EntryLeIff(a: Entry, b: Entry)
    ensures EntryLe(a, b) <==>
      if a.Node? != b.Node? then a.Node?
      else if a.Value? && b.Value? && a.kind != b.kind then a.kind < b.kind
      else exists k: nat :: PartsAt(a.str, b.str, k)
  {
    StrLeIff(a.str, b.str);
  }

  function StrOrdering(): (le: (Str, Str) -> bool)
    ensures TotalOrder(le)
  {
    var le := (a: Str, b: Str) => StrLe(a, b);
    assert TotalOrder(le) by {
      forall a, b, c ensures StrLe(a, a) && (StrLe(a, b) || StrLe(b, a)) && (StrLe(a, b) && StrLe(b, a) ==> a == b) &&
        (StrLe(a, b) && StrLe(b, c) ==> StrLe(a, c)) {
        StrOrder(a, b, c);
      }
    }
    le
  }

  function EntryOrdering(): (le: (Entry, Entry) -> bool)
    ensures TotalOrder(le)
  {
    var le := (a: Entry, b: Entry) => EntryLe(a, b);
    assert TotalOrder(le) by {
      forall a: Entry, b: Entry, c: Entry
        ensures EntryLe(a, a) && (EntryLe(a, b) || EntryLe(b, a))
          && (EntryLe(a, b) && EntryLe(b, a) ==> a == b) && (EntryLe(a, b) && EntryLe(b, c) ==> EntryLe(a, c))
      {
        StrOrder(a.str, b.str, c.str);
      }
    }
    le
  }

  /* ---- finding entries ---- */

  /** The one-based position of `x`. */
  function Find<T(==)>(list: seq<T>, x: T): (r: Option<nat>)
    ensures r.Some? ==> 1 <= r.value <= |list| && list[r.value - 1] == x
    ensures r.None? ==> x !in list
  {
    if list == [] then None
    else if list[|list| - 1] == x then Some(|list|)
    else Find(list[..|list| - 1], x)
  }

  /* ---- id maps ---- */

  /** `tree[i]` is the outer id, counted from zero, of the entry at position `i` of the sorted
      dictionary; without a tree inner and outer ids coincide. */
  datatype IdMap = IdMap(tree: Option<seq<nat>>) {

    /** The map permutes the `n` ids of its dictionary. */
    predicate Permutes(n: nat) {
      tree.Some? ==> |tree.value| == n && Distinct(tree.value) && forall i :: 0 <= i < n ==> tree.value[i] < n
    }

    function OuterToInner(id: nat): (r: nat)
      requires 1 <= id
    {
      match tree
      case None => id
      case Some(list) =>
        if id > |list| then id else
          match Find(list, id - 1)
          case Some(pos) => pos
          case None => 0
    }

    function InnerToOuter(id: nat): (r: nat)
      requires 1 <= id
      ensures 1 <= r
    {
      match tree
      case None => id
      case Some(list) => if id > |list| then id else list[id - 1] + 1
    }
  }

  function Below(n: nat): (r: set<nat>)
    ensures |r| == n && forall v: nat {:trigger v in r} :: v in r <==> v < n
  {
    if n == 0 then {} else Below(n - 1) + {n - 1}
  }

  /** Distinct numbers below `n`, `n` of them: every number below `n` is among them. */
  lemma PigeonHole(list: seq<nat>, n: nat)
    requires |list| == n && Distinct(list) && forall i :: 0 <= i < n ==> list[i] < n
    ensures forall v :: 0 <= v < n ==> v in list
  {
    DistinctSize(list);
    SubsetSameSize(Elements(list), Below(n));
    forall v | 0 <= v < n ensures v in list {
      assert v in Below(n);
    }
  }

  lemma {:induction false} DistinctSize<T>(list: seq<T>)
    requires Distinct(list)
    ensures |Elements(list)| == |list|
  {
    if list != [] {
      var init, last := list[..|list| - 1], list[|list| - 1];
      DistinctSize(init);
      assert last !in init;
      assert list == init + [last];
      assert Elements(list) == Elements(init) + {last};
    } else {
      assert Elements(list) == {};
    }
  }

  lemma SubsetSameSize<T>(a: set<T>, b: set<T>)
    requires a <= b && |a| == |b|
    ensures a == b
  {
    assert b == a + (b - a) && |b| == |a| + |b - a|;
    assert b - a == {};
  }

  /** On the ids of its dictionary an id map is a bijection, and the two directions undo each
      other. */
  lemma IdMapInverts(m: IdMap, n: nat, id: nat)
    requires m.Permutes(n) && 1 <= id <= n
    ensures 1 <= m.OuterToInner(id) <= n && m.InnerToOuter(m.OuterToInner(id)) == id
    ensures 1 <= m.InnerToOuter(id) <= n && m.OuterToInner(m.InnerToOuter(id)) == id
  {
    match m.tree
    case None =>
    case Some(list) =>
      PigeonHole(list, n);
      assert id - 1 in list;
      var i := m.OuterToInner(m.InnerToOuter(id)) - 1;
      assert list[i] == list[id - 1];
  }

  /** Ids beyond the dictionary are left alone. */
  lemma IdMapBeyond(m: IdMap, n: nat, id: nat)
    requires m.Permutes(n) && id > n
    ensures m.OuterToInner(id) == id && m.InnerToOuter(id) == id
  {
  }

  /* ---- one layer's dictionary ---- */

  datatype Dictionary = Dictionary(
    nodes: seq<Str>, predicates: seq<Str>, values: seq<Entry>, nodeValueIds: IdMap, predicateIds: IdMap)
  {
    function Count(): nat {
      |nodes| + |values|
    }

    /** Nodes, then values: the dictionary in inner id order. */
    function Entries(): (es: seq<Entry>)
      ensures |es| == Count()
      ensures forall i :: 0 <= i < |nodes| ==> es[i] == Node(nodes[i])
      ensures forall i :: 0 <= i < |values| ==> es[|nodes| + i] == values[i]
    {
      seq(|nodes|, i requires 0 <= i < |nodes| => Node(nodes[i])) + values
    }

    ghost predicate Valid() {
      && Ascending(StrOrdering(), nodes) && Ascending(StrOrdering(), predicates) && Ascending(EntryOrdering(), values)
      && (forall i :: 0 <= i < |values| ==> values[i].Value?)
      && nodeValueIds.Permutes(Count()) && predicateIds.Permutes(|predicates|)
    }

    /** The entries by outer id. */
    function Outer(): (r: seq<Entry>)
      requires Valid()
    {
      Permuted(Entries(), nodeValueIds)
    }

    function OuterPredicates(): seq<Str>
      requires Valid()
    {
      Permuted(predicates, predicateIds)
    }
  }

  /** The entries `es` in outer id order. */
  function Permuted<T>(es: seq<T>, m: IdMap): (r: seq<T>)
    requires m.Permutes(|es|)
    ensures |r| == |es|
    ensures forall id {:trigger m.OuterToInner(id)} :: 1 <= id <= |r| ==>
      1 <= m.OuterToInner(id) <= |es| && r[id - 1] == es[m.OuterToInner(id) - 1]
  {
    assert forall id {:trigger m.OuterToInner(id)} :: 1 <= id <= |es| ==> 1 <= m.OuterToInner(id) <= |es| by {
      forall id | 1 <= id <= |es| ensures 1 <= m.OuterToInner(id) <= |es| {
        IdMapInverts(m, |es|, id);
      }
    }
    seq(|es|, i requires 0 <= i < |es| => es[m.OuterToInner(i + 1) - 1])
  }

  /** An entry's inner position determines where it stands by outer id. */
  lemma PermutedAt<T>(es: seq<T>, m: IdMap, inner: nat)
    requires m.Permutes(|es|) && 1 <= inner <= |es|
    ensures 1 <= m.InnerToOuter(inner) <= |es|
    ensures Permuted(es, m)[m.InnerToOuter(inner) - 1] == es[inner - 1]
  {
    IdMapInverts(m, |es|, inner);
    var outer := m.InnerToOuter(inner);
    assert m.OuterToInner(outer) == inner;
  }

  /** Permuting neither repeats nor loses entries. */
  lemma PermutedDistinct<T>(es: seq<T>, m: IdMap)
    requires m.Permutes(|es|) && Distinct(es)
    ensures Distinct(Permuted(es, m)) && Elements(Permuted(es, m)) == Elements(es)
  {
    hide IdMap.Permutes, Permuted, IdMap.OuterToInner, IdMap.InnerToOuter;
    var n, r := |es|, Permuted(es, m);
    SameLength(es, m);
    forall i, j | 0 <= i < j < n ensures r[i] != r[j] {
      OuterAt(es, m, i + 1);
      OuterAt(es, m, j + 1);
      assert m.OuterToInner(i + 1) != m.OuterToInner(j + 1);
    }
    forall e ensures e in Elements(r) <==> e in Elements(es) {
      if e in es {
        var i :| 0 <= i < n && es[i] == e;
        PermutedAt(es, m, i + 1);
        assert r[m.InnerToOuter(i + 1) - 1] == e;
      }
      if e in r {
        var i :| 0 <= i < n && r[i] == e;
        OuterAt(es, m, i + 1);
        assert es[m.OuterToInner(i + 1) - 1] == e;
      }
    }
    assert Elements(r) == Elements(es);
  }

  lemma SameLength<T>(es: seq<T>, m: IdMap)
    requires m.Permutes(|es|)
    ensures |Permuted(es, m)| == |es|
  {
  }

  /** What stands at an outer id is the entry at its inner one. */
  lemma OuterAt<T>(es: seq<T>, m: IdMap, id: nat)
    requires m.Permutes(|es|) && 1 <= id <= |es|
    ensures |Permuted(es, m)| == |es| && 1 <= m.OuterToInner(id) <= |es|
    ensures Permuted(es, m)[id - 1] == es[m.OuterToInner(id) - 1] && m.InnerToOuter(m.OuterToInner(id)) == id
  {
    hide IdMap.Permutes;
    IdMapInverts(m, |es|, id);
  }

  /** No entry occurs twice in one dictionary. */
  lemma EntriesDistinct(d: Dictionary)
    requires d.Valid()
    ensures Distinct(d.Entries())
  {
  }

  lemma OuterDistinct(d: Dictionary)
    requires d.Valid()
    ensures Distinct(d.Outer()) && Elements(d.Outer()) == Elements(d.Entries())
    ensures Distinct(d.OuterPredicates()) && Elements(d.OuterPredicates()) == Elements(d.predicates)
  {
    EntriesDistinct(d);
    PermutedDistinct(d.Entries(), d.nodeValueIds);
    PermutedDistinct(d.predicates, d.predicateIds);
  }
}
