/** The archive format: one file holding all files of a layer behind a presence word and
    cumulative offsets. The bit-packed encoding of the offsets belongs to the tdb_succinct library
    and is not part of this model; the presence word and the data are modelled byte by byte. */
module Archives {
  import opened Sorting
  import opened Triples
  import opened Dictionaries
  import opened AdjacencyLists

  type Bytes = seq<byte>

  /** The kinds of files a layer can have, in their fixed order; the word has room for more. */
  const FILE_TYPES: nat := 50
  const WORD: nat := 64

  type FileType = t: nat | t < FILE_TYPES

  /** A file of a layer being built. Only finalized files end up in the archive. */
  datatype ConstructionFile = UnderConstruction(written: Bytes) | Finalizing | Finalized(buf: Bytes)

  /* ---- the presence word ---- */

  function Pow2(n: nat): (r: nat)
    ensures r > 0
  {
    if n == 0 then 1 else 2 * Pow2(n - 1)
  }

  /** Bits as a number, the most significant first. */
  function BitsToNat(bits: seq<bool>): (v: nat)
    ensures v < Pow2(|bits|)
  {
    if bits == [] then 0 else 2 * BitsToNat(bits[..|bits| - 1]) + (if bits[|bits| - 1] then 1 else 0)
  }

  function NatToBits(v: nat, n: nat): (bits: seq<bool>)
    ensures |bits| == n
  {
    if n == 0 then [] else NatToBits(v / 2, n - 1) + [v % 2 == 1]
  }

  lemma {:induction false} BitsRoundTrip(bits: seq<bool>)
    ensures NatToBits(BitsToNat(bits), |bits|) == bits
  {
    if bits != [] {
      BitsRoundTrip(bits[..|bits| - 1]);
      assert bits == bits[..|bits| - 1] + [bits[|bits| - 1]];
    }
  }

  /** Bit `k` of an `n`-bit number, counted from the most significant one. */
  predicate BitOf(v: nat, n: nat, k: nat)
    requires k < n
  {
    v / Pow2(n - 1 - k) % 2 == 1
  }

  lemma Multiple(d: nat, e: int)
    ensures e >= 1 ==> d * e >= d
    ensures e <= -1 ==> d * e <= 0 - d
  {
    if e >= 1 {
      assert d * e == d + d * (e - 1);
    } else if e <= -1 {
      assert d * e == d * (e + 1) - d;
    }
  }

  lemma QuotientIs(a: nat, d: nat, k: nat, r: nat)
    requires a == d * k + r && r < d
    ensures a / d == k
  {
    var e := a / d - k;
    assert d * e == d * (a / d) - d * k;
    assert a == d * (a / d) + a % d;
    Multiple(d, e);
  }

  lemma HalfQuotient(u: nat, b: nat, q: nat)
    requires b < 2 && q > 0
    ensures (2 * u + b) / (2 * q) == u / q
  {
    var k, r := u / q, u % q;
    assert 2 * u + b == (2 * q) * k + (2 * r + b);
    QuotientIs(2 * u + b, 2 * q, k, 2 * r + b);
  }

  /** The number has exactly the bits given, the most significant first. */
  lemma {:induction false} BitsOfNumber(bits: seq<bool>, k: nat)
    requires k < |bits|
    ensures BitOf(BitsToNat(bits), |bits|, k) <==> bits[k]
  {
    var init, n := bits[..|bits| - 1], |bits|;
    var u, b := BitsToNat(init), if bits[n - 1] then 1 else 0;
    assert BitsToNat(bits) == 2 * u + b;
    if k < n - 1 {
      BitsOfNumber(init, k);
      HalfQuotient(u, b, Pow2(n - 2 - k));
    } else {
      LowestBit(u, b);
    }
  }

  lemma LowestBit(u: nat, b: nat)
    requires b < 2
    ensures (2 * u + b) / Pow2(0) % 2 == b
  {
    assert (2 * u + b) / 1 == 2 * u + b;
  }

  function ToByte(b: seq<bool>): byte
    requires |b| == 8
  {
    assert Pow2(8) == 256;
    BitsToNat(b) as byte
  }

  function FromByte(x: byte): (b: seq<bool>)
    ensures |b| == 8
  {
    NatToBits(x as nat, 8)
  }

  lemma ByteRoundTrip(b: seq<bool>)
    requires |b| == 8
    ensures FromByte(ToByte(b)) == b
  {
    BitsRoundTrip(b);
  }

  /** The word as written to the archive, most significant byte first. */
  function WordBytes(bits: seq<bool>): (r: Bytes)
    requires |bits| % 8 == 0
    ensures |r| == |bits| / 8
  {
    if bits == [] then [] else [ToByte(bits[..8])] + WordBytes(bits[8..])
  }

  function BytesWord(bytes: Bytes): (r: seq<bool>)
    ensures |r| == 8 * |bytes|
  {
    if bytes == [] then [] else FromByte(bytes[0]) + BytesWord(bytes[1..])
  }

  lemma {:induction false} WordRoundTrip(bits: seq<bool>)
    requires |bits| % 8 == 0
    ensures BytesWord(WordBytes(bits)) == bits
  {
    if bits != [] {
      ByteRoundTrip(bits[..8]);
      WordRoundTrip(bits[8..]);
      assert bits == bits[..8] + bits[8..];
    }
  }

  /** Bit `t` of the word is bit `t % 8`, from the most significant one, of byte `t / 8`. */
  lemma {:induction false} WordBit(bits: seq<bool>, t: nat)
    requires |bits| % 8 == 0 && t < |bits|
    ensures BitOf(WordBytes(bits)[t / 8] as nat, 8, t % 8) <==> bits[t]
  {
    if t < 8 {
      BitsOfNumber(bits[..8], t);
    } else {
      var rest := bits[8..];
      WordBit(rest, t - 8);
      assert (t - 8) / 8 == t / 8 - 1 && (t - 8) % 8 == t % 8;
      assert rest[t - 8] == bits[t];
    }
  }

  /** Bit `t` of the word, counted from the most significant one, says that file `t` is there. */
  datatype PresenceHeader = PresenceHeader(bits: seq<bool>) {
    predicate Valid() {
      |bits| == WORD
    }

    predicate IsPresent(t: FileType)
      requires Valid()
    {
      bits[t]
    }

    /** The number of files up to and including this one, less one. */
    function FileIndex(t: FileType): Option<nat>
      requires Valid()
    {
      if !IsPresent(t) then None else
        assert Rank(bits, t + 1) >= 1;
        Some(Rank(bits, t + 1) - 1)
    }
  }

  method FromPresent(files: seq<FileType>) returns (h: PresenceHeader)
    ensures h.Valid() && forall i :: 0 <= i < WORD ==> (h.bits[i] <==> exists k :: 0 <= k < |files| && files[k] == i)
  {
    var bits := seq(WORD, _ => false);
    for k := 0 to |files|
      invariant |bits| == WORD && forall i :: 0 <= i < WORD ==> (bits[i] <==> exists m :: 0 <= m < k && files[m] == i)
    {
      bits := bits[files[k] := true];
    }
    h := PresenceHeader(bits);
  }

  /* ---- the archive ---- */

  datatype ArchiveHeader = ArchiveHeader(presence: PresenceHeader, offsets: seq<nat>) {
    /** Where a file's bytes are; none if there is no such file. */
    function RangeFor(t: FileType): Option<(nat, nat)>
      requires presence.Valid()
    {
      match presence.FileIndex(t)
      case None => None
      case Some(i) =>
        if i < |offsets| then Some((if i == 0 then 0 else offsets[i - 1], offsets[i])) else None
    }

    function SizeOf(t: FileType): Option<int>
      requires presence.Valid()
    {
      match RangeFor(t) case None => None case Some(r) => Some(r.1 - r.0)
    }
  }

  /** An archive as stored: the presence word, the offsets, the data. */
  datatype Stored = Stored(word: Bytes, offsets: seq<nat>, data: Bytes)

  datatype Archive = Archive(header: ArchiveHeader, data: Bytes) {
    function SliceFor(t: FileType): Option<Bytes>
      requires header.presence.Valid()
    {
      match header.RangeFor(t)
      case None => None
      case Some(r) => if r.0 <= r.1 <= |data| then Some(data[r.0..r.1]) else None
    }
  }

  function Parse(s: Stored): (a: Archive)
    requires |s.word| == WORD / 8
    ensures a.header.presence.Valid()
  {
    Archive(ArchiveHeader(PresenceHeader(BytesWord(s.word)), s.offsets), s.data)
  }

  /* ---- writing it ---- */

  type Entry = (FileType, Bytes)

  /** Sorts files by their type. */
  function TypeOrder(): (le: (Entry, Entry) -> bool)
    ensures TotalOrder(le)
  {
    var le := (a: Entry, b: Entry) => if a.0 == b.0 then StrLe(a.1, b.1) else a.0 < b.0;
    assert TotalOrder(le) by {
      forall a: Entry, b: Entry, c: Entry
        ensures le(a, a) && (le(a, b) || le(b, a)) && (le(a, b) && le(b, a) ==> a == b) &&
          (le(a, b) && le(b, c) ==> le(a, c))
      {
        StrOrder(a.1, b.1, c.1);
      }
    }
    le
  }

  ghost predicate FinalizedFile(files: map<FileType, ConstructionFile>, e: Entry) {
    e.0 in files && files[e.0] == Finalized(e.1)
  }

  ghost predicate TypesDistinct(list: seq<Entry>) {
    forall i, j :: 0 <= i < j < |list| ==> list[i].0 != list[j].0
  }

  /** Collects the finalized files from the construction map, in whatever order. */
  method CollectFinalized(files: map<FileType, ConstructionFile>) returns (list: seq<Entry>)
    ensures TypesDistinct(list) && forall e :: e in list <==> FinalizedFile(files, e)
  {
    list := [];
    var remaining := files.Keys;
    while remaining != {}
      invariant remaining <= files.Keys
      invariant forall i :: 0 <= i < |list| ==> list[i].0 !in remaining
      invariant TypesDistinct(list) && forall e :: e in list <==> FinalizedFile(files, e) && e.0 !in remaining
      decreases |remaining|
    {
      var t :| t in remaining;
      remaining := remaining - {t};
      if files[t].Finalized? {
        list := list + [(t, files[t].buf)];
      }
    }
  }

  function TotalSize(list: seq<Entry>): nat {
    if list == [] then 0 else TotalSize(list[..|list| - 1]) + |list[|list| - 1].1|
  }

  function AllData(list: seq<Entry>): (r: Bytes)
    ensures |r| == TotalSize(list)
  {
    if list == [] then [] else AllData(list[..|list| - 1]) + list[|list| - 1].1
  }

  ghost predicate Ends(list: seq<Entry>, offsets: seq<nat>) {
    |offsets| == |list| && forall k :: 0 <= k < |list| ==> offsets[k] == TotalSize(list[..k + 1])
  }

  /** What an archive of the files holds, byte by byte: the types `order` of the finalized files,
      ascending; bit `t` of the word, the most significant one of its first byte being bit 0, for
      every type; the ends of the files; and their bytes one after the other. */
  ghost predicate HoldsFiles(s: Stored, files: map<FileType, ConstructionFile>, order: seq<FileType>) {
    && (forall i, j :: 0 <= i < j < |order| ==> order[i] < order[j])
    && (forall t: FileType :: t in order <==> t in files && files[t].Finalized?)
    && |s.word| == WORD / 8
    && (forall t: nat :: t < WORD ==> (s.word[t / 8] as nat / Pow2(7 - t % 8) % 2 == 1 <==> t in order))
    && |s.offsets| == |order| && |s.data| == StartOf(s.offsets, |order|)
    && (forall k :: 0 <= k < |order| ==> FileAt(s, files, order[k], StartOf(s.offsets, k), s.offsets[k]))
  }

  function StartOf(offsets: seq<nat>, k: nat): nat
    requires k <= |offsets|
  {
    if k == 0 then 0 else offsets[k - 1]
  }

  ghost predicate FileAt(s: Stored, files: map<FileType, ConstructionFile>, t: FileType, start: nat, end: nat) {
    start <= end <= |s.data| && t in files && files[t] == Finalized(s.data[start..end])
  }

  /** Writes a finished layer: files in their fixed order, their ends, and which there are. */
  method Finalize(files: map<FileType, ConstructionFile>) returns (s: Stored, ghost order: seq<FileType>)
    ensures HoldsFiles(s, files, order)
    ensures |s.word| == WORD / 8 && forall t: nat :: t < WORD ==>
      (s.word[t / 8] as nat / Pow2(7 - t % 8) % 2 == 1 <==> t < FILE_TYPES && t in files && files[t].Finalized?)
    ensures forall t: FileType :: Parse(s).SliceFor(t) == if t in files && files[t].Finalized? then Some(files[t].buf)
      else None
    ensures forall t: FileType :: Parse(s).header.SizeOf(t) == if t in files && files[t].Finalized?
      then Some(|files[t].buf|) else None
  {
    hide TotalOrder, Sorted, Ascending, WordBytes, BytesWord, TotalSize, AllData, Rank, TypesDistinct,
      Archive.SliceFor, ArchiveHeader.SizeOf, HoldsFiles, BitOf;
    var collected := CollectFinalized(files);
    var list := Sort(TypeOrder(), collected);
    SortIsSorted(TypeOrder(), collected);
    SortedTypes(collected, list);
    var types := TypesOf(list);
    var presence := FromPresent(types);
    var offsets: seq<nat> := [];
    var data: Bytes := [];
    var tally := 0;
    NothingWritten(list);
    for k := 0 to |list|
      invariant tally == TotalSize(list[..k]) && data == AllData(list[..k]) && Ends(list[..k], offsets)
    {
      WriteMore(list, offsets, k);
      tally := tally + |list[k].1|;
      offsets := offsets + [tally];
      data := data + list[k].1;
    }
    assert list[..|list|] == list;
    s := Stored(WordBytes(presence.bits), offsets, data);
    order := types;
    FilesHeld(files, list, types, presence, s);
    WordSays(s, files, order);
    WordRoundTrip(presence.bits);
    forall t: FileType ensures Parse(s).SliceFor(t) ==
      (if t in files && files[t].Finalized? then Some(files[t].buf) else None) &&
      Parse(s).header.SizeOf(t) == if t in files && files[t].Finalized? then Some(|files[t].buf|) else None {
      SliceIs(files, list, types, presence, offsets, data, t);
    }
  }

  lemma NothingWritten(list: seq<Entry>)
    ensures TotalSize(list[..0]) == 0 && AllData(list[..0]) == [] && Ends(list[..0], [])
  {
  }

  lemma WriteMore(list: seq<Entry>, offsets: seq<nat>, k: nat)
    requires k < |list| && Ends(list[..k], offsets)
    ensures TotalSize(list[..k + 1]) == TotalSize(list[..k]) + |list[k].1| &&
      AllData(list[..k + 1]) == AllData(list[..k]) + list[k].1
    ensures Ends(list[..k + 1], offsets + [TotalSize(list[..k + 1])])
  {
    assert list[..k + 1][..k] == list[..k];
    var after := offsets + [TotalSize(list[..k + 1])];
    forall m | 0 <= m < |after| ensures after[m] == TotalSize(list[..k + 1][..m + 1]) {
      assert list[..k + 1][..m + 1] == list[..m + 1];
      if m < k {
        assert list[..k][..m + 1] == list[..m + 1];
      }
    }
  }

  function TypesOf(list: seq<Entry>): (r: seq<FileType>)
    ensures |r| == |list| && forall i :: 0 <= i < |r| ==> r[i] == list[i].0
  {
    seq(|list|, i requires 0 <= i < |list| => list[i].0)
  }

  ghost predicate TypesAscend(list: seq<Entry>) {
    forall i, j :: 0 <= i < j < |list| ==> list[i].0 < list[j].0
  }

  lemma SortedTypes(collected: seq<Entry>, list: seq<Entry>)
    requires TypesDistinct(collected) && Sorted(TypeOrder(), list) && multiset(list) == multiset(collected)
    ensures TypesAscend(list) && forall e :: e in list <==> e in collected
  {
    hide TotalOrder;
    assert Distinct(collected);
    SortedDistinctAscends(TypeOrder(), list, collected);
    forall e ensures e in list <==> e in collected {
      assert e in list <==> e in Elements(list);
    }
    forall i, j | 0 <= i < j < |list| ensures list[i].0 < list[j].0 {
      assert TypeOrder()(list[i], list[j]) && list[i] != list[j];
      assert list[i] in collected && list[j] in collected;
    }
  }

  /** The rank of a file's bit is its place among the files. */
  lemma {:induction false} RankIsPlace(bits: seq<bool>, list: seq<Entry>, i: nat, k: nat)
    requires TypesAscend(list) && i <= |bits| && k <= |list|
    requires forall t :: 0 <= t < |bits| ==> (bits[t] <==> exists m :: 0 <= m < |list| && list[m].0 == t)
    requires (forall m :: 0 <= m < k ==> list[m].0 < i) && (forall m :: k <= m < |list| ==> i <= list[m].0)
    ensures Rank(bits, i) == k
  {
    if i > 0 {
      if bits[i - 1] {
        var m :| 0 <= m < |list| && list[m].0 == i - 1;
        assert m < k;
        forall n | 0 <= n < k - 1 ensures list[n].0 < i - 1 {
          assert list[n].0 < list[k - 1].0 < i;
        }
        RankIsPlace(bits, list, i - 1, k - 1);
      } else {
        RankIsPlace(bits, list, i - 1, k);
      }
    }
  }

  lemma {:induction false} DataBetween(list: seq<Entry>, k: nat)
    requires k < |list|
    ensures TotalSize(list[..k]) + |list[k].1| == TotalSize(list[..k + 1]) <= |AllData(list)|
    ensures AllData(list)[TotalSize(list[..k])..TotalSize(list[..k + 1])] == list[k].1
  {
    var n := |list|;
    assert list[..k + 1][..k] == list[..k];
    if k == n - 1 {
      assert list[..k + 1] == list;
    } else {
      var init := list[..n - 1];
      DataBetween(init, k);
      assert init[..k] == list[..k] && init[..k + 1] == list[..k + 1];
    }
  }

  lemma SliceIs(files: map<FileType, ConstructionFile>, list: seq<Entry>, types: seq<FileType>,
      presence: PresenceHeader, offsets: seq<nat>, data: Bytes, t: FileType)
    requires TypesAscend(list) && (forall e :: e in list <==> FinalizedFile(files, e)) && types == TypesOf(list)
    requires presence.Valid() && forall i :: 0 <= i < WORD ==>
      (presence.bits[i] <==> exists k :: 0 <= k < |types| && types[k] == i)
    requires Ends(list, offsets) && data == AllData(list)
    ensures var a := Archive(ArchiveHeader(presence, offsets), data);
      && a.SliceFor(t) == (if t in files && files[t].Finalized? then Some(files[t].buf) else None)
      && a.header.SizeOf(t) == (if t in files && files[t].Finalized? then Some(|files[t].buf|) else None)
  {
    hide AllData, TotalSize, Rank;
    if t in files && files[t].Finalized? {
      assert FinalizedFile(files, (t, files[t].buf));
      var k :| 0 <= k < |list| && list[k] == (t, files[t].buf);
      assert types[k] == t;
      PlaceIs(presence.bits, list, types, k);
      DataBetween(list, k);
      Starts(list, offsets, k);
    } else {
      NotAmong(files, list, types, t);
    }
  }

  lemma FilesHeld(files: map<FileType, ConstructionFile>, list: seq<Entry>, types: seq<FileType>,
      presence: PresenceHeader, s: Stored)
    requires TypesAscend(list) && (forall e :: e in list <==> FinalizedFile(files, e)) && types == TypesOf(list)
    requires presence.Valid() && forall i :: 0 <= i < WORD ==>
      (presence.bits[i] <==> exists k :: 0 <= k < |types| && types[k] == i)
    requires s.word == WordBytes(presence.bits) && Ends(list, s.offsets) && s.data == AllData(list)
    ensures HoldsFiles(s, files, types)
  {
    hide AllData, TotalSize, WordBytes, TypesAscend, Pow2, FileAt, Ends, FinalizedFile;
    forall i, j | 0 <= i < j < |types| ensures types[i] < types[j] {
      TypesInOrder(list, i, j);
    }
    TypesHeld(files, list, types);
    WordHolds(presence, types, s.word);
    EndIsSize(list, s.offsets);
    forall k | 0 <= k < |types| ensures FileAt(s, files, types[k], StartOf(s.offsets, k), s.offsets[k]) {
      FileHeld(files, list, s, k);
    }
  }

  lemma WordSays(s: Stored, files: map<FileType, ConstructionFile>, order: seq<FileType>)
    requires HoldsFiles(s, files, order)
    ensures |s.word| == WORD / 8 && forall t: nat :: t < WORD ==>
      (s.word[t / 8] as nat / Pow2(7 - t % 8) % 2 == 1 <==> t < FILE_TYPES && t in files && files[t].Finalized?)
  {
    hide Pow2, FileAt;
  }

  lemma TypesHeld(files: map<FileType, ConstructionFile>, list: seq<Entry>, types: seq<FileType>)
    requires (forall e :: e in list <==> FinalizedFile(files, e)) && types == TypesOf(list)
    ensures forall t: FileType :: t in types <==> t in files && files[t].Finalized?
  {
    forall t: FileType ensures t in types <==> t in files && files[t].Finalized? {
      if t in files && files[t].Finalized? {
        assert FinalizedFile(files, (t, files[t].buf));
        var k :| 0 <= k < |list| && list[k] == (t, files[t].buf);
        assert types[k] == t;
      } else {
        NotAmong(files, list, types, t);
      }
    }
  }

  lemma FileHeld(files: map<FileType, ConstructionFile>, list: seq<Entry>, s: Stored, k: nat)
    requires (forall e :: e in list <==> FinalizedFile(files, e)) && k < |list|
    requires Ends(list, s.offsets) && s.data == AllData(list)
    ensures |s.offsets| == |list| && FileAt(s, files, list[k].0, StartOf(s.offsets, k), s.offsets[k])
  {
    hide AllData, TotalSize;
    assert list[k] in list;
    DataBetween(list, k);
    Starts(list, s.offsets, k);
  }

  lemma WordHolds(presence: PresenceHeader, types: seq<FileType>, word: Bytes)
    requires presence.Valid() && word == WordBytes(presence.bits)
    requires forall i :: 0 <= i < WORD ==> (presence.bits[i] <==> exists k :: 0 <= k < |types| && types[k] == i)
    ensures |word| == WORD / 8
    ensures forall t: nat :: t < WORD ==> (word[t / 8] as nat / Pow2(7 - t % 8) % 2 == 1 <==> t in types)
  {
    hide WordBytes, Pow2;
    forall t: nat | t < WORD ensures word[t / 8] as nat / Pow2(7 - t % 8) % 2 == 1 <==> t in types {
      WordBit(presence.bits, t);
      assert word[t / 8] as nat / Pow2(7 - t % 8) % 2 == 1 <==> BitOf(word[t / 8] as nat, 8, t % 8);
      assert presence.bits[t] <==> t in types;
    }
  }

  lemma TypesInOrder(list: seq<Entry>, i: nat, j: nat)
    requires TypesAscend(list) && i < j < |list|
    ensures list[i].0 < list[j].0
  {
  }

  lemma EndIsSize(list: seq<Entry>, offsets: seq<nat>)
    requires Ends(list, offsets)
    ensures |offsets| == |list| && StartOf(offsets, |list|) == TotalSize(list)
  {
    assert list[..|list|] == list;
  }

  lemma NotAmong(files: map<FileType, ConstructionFile>, list: seq<Entry>, types: seq<FileType>, t: FileType)
    requires (forall e :: e in list <==> FinalizedFile(files, e)) && types == TypesOf(list)
    requires !(t in files && files[t].Finalized?)
    ensures forall k :: 0 <= k < |types| ==> types[k] != t
  {
    forall k | 0 <= k < |types| ensures types[k] != t {
      assert list[k] in list;
    }
  }

  lemma PlaceIs(bits: seq<bool>, list: seq<Entry>, types: seq<FileType>, k: nat)
    requires TypesAscend(list) && types == TypesOf(list) && k < |list| && |bits| == WORD
    requires forall i :: 0 <= i < WORD ==> (bits[i] <==> exists k :: 0 <= k < |types| && types[k] == i)
    ensures bits[list[k].0] && Rank(bits, list[k].0 as nat + 1) == k + 1
  {
    assert types[k] == list[k].0;
    forall t | 0 <= t < |bits| ensures bits[t] <==> exists m :: 0 <= m < |list| && list[m].0 == t {
      if bits[t] {
        var m :| 0 <= m < |types| && types[m] == t;
        assert list[m].0 == t;
      }
      if m: nat :| m < |list| && list[m].0 == t {
        assert types[m] == t;
      }
    }
    RankIsPlace(bits, list, list[k].0 as nat + 1, k + 1);
  }

  lemma Starts(list: seq<Entry>, offsets: seq<nat>, k: nat)
    requires Ends(list, offsets) && k < |list|
    ensures (if k == 0 then 0 else offsets[k - 1]) == TotalSize(list[..k])
  {
  }
}
