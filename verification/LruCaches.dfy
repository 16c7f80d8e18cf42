/** The byte cache in front of an archive store, as the steps its tasks take between lock
    regions. Several requests may be under way at once; every interleaving of their steps is a
    sequence of calls to the methods of `LruArchiveBackend`. */
module LruCaches {
  import opened Sorting
  import opened Triples
  import opened Dictionaries
  import opened InternalLayers
  import opened RecencyLists

  /** A one-off result, locked by its resolver: while the layer is looked up, and still a little
      after the cache has been brought up to date, until the resolver lets go of it. */
  datatype Barrier = Barrier(owner: Name, result: Option<Lookup>, stage: Stage)

  datatype Stage = Pending | Settling | Open

  datatype Request =
    | Looking(id: Name, barrier: nat)
    | Fetched(id: Name, barrier: nat, lookup: Lookup)
    | Settled(id: Name, barrier: nat, lookup: Lookup)
    | Waiting(id: Name, barrier: nat)
    | Answered(id: Name, via: Option<nat>, lookup: Lookup)
    | Storing(id: Name, bytes: Bytes)
    | Finished

  predicate Active(r: Request) {
    r.Looking? || r.Fetched?
  }

  /* ---- the state ---- */

  /** `resolver` maps every barrier whose lookup is pending to the one request that holds it. */
  ghost predicate Resolvers(requests: seq<Request>, barriers: seq<Barrier>, resolver: map<nat, nat>) {
    && (forall b: nat :: b in resolver <==> b < |barriers| && barriers[b].stage == Pending)
    && (forall b: nat :: b in resolver ==> HoldsBarrier(requests, barriers, resolver[b], b))
    && (forall i :: 0 <= i < |requests| && Active(requests[i]) ==>
      requests[i].barrier in resolver && resolver[requests[i].barrier] == i)
  }

  ghost predicate HoldsBarrier(requests: seq<Request>, barriers: seq<Barrier>, i: nat, b: nat) {
    && i < |requests| && b < |barriers| && Active(requests[i])
    && requests[i].barrier == b && requests[i].id == barriers[b].owner
  }

  /** Every barrier still locked after its lookup has one request that will let go of it. */
  ghost predicate Guards(requests: seq<Request>, barriers: seq<Barrier>) {
    && (forall b: nat :: b < |barriers| && barriers[b].stage == Settling ==>
      exists k: nat :: WillRelease(requests, k, b))
    && (forall i :: 0 <= i < |requests| && requests[i].Settled? ==>
      requests[i].barrier < |barriers| && barriers[requests[i].barrier].stage == Settling)
    && (forall i, j :: 0 <= i < j < |requests| && requests[i].Settled? && requests[j].Settled? ==>
      requests[i].barrier != requests[j].barrier)
  }

  predicate WillRelease(requests: seq<Request>, k: nat, b: nat) {
    k < |requests| && requests[k].Settled? && requests[k].barrier == b
  }

  /** Every entry being resolved has its resolver, and every resolver its entry. */
  ghost predicate Entries(items: seq<Item>, barriers: seq<Barrier>, resolver: map<nat, nat>) {
    && KeysDistinct(items)
    && (forall x :: x in items && x.1.Resolving? ==>
      x.1.barrier in resolver && x.1.barrier < |barriers| && barriers[x.1.barrier].owner == x.0)
    && (forall b: nat :: b in resolver && b < |barriers| ==> (barriers[b].owner, Resolving(b)) in items)
  }

  /** Bytes said to be those of a layer are those of the origin. */
  predicate TrueTo(origin: map<Name, Bytes>, id: Name, lookup: Lookup) {
    lookup.Ok? ==> id in origin && origin[id] == lookup.bytes
  }

  ghost predicate EntriesTrue(items: seq<Item>, origin: map<Name, Bytes>) {
    forall x :: x in items && x.1.Resolved? ==> TrueTo(origin, x.0, Ok(x.1.bytes))
  }

  ghost predicate BarriersTrue(barriers: seq<Barrier>, origin: map<Name, Bytes>) {
    && (forall b :: 0 <= b < |barriers| && barriers[b].result.Some? ==>
      TrueTo(origin, barriers[b].owner, barriers[b].result.value))
    && (forall b :: 0 <= b < |barriers| && barriers[b].stage != Pending ==> barriers[b].result.Some?)
  }

  ghost predicate RequestTrue(r: Request, barriers: seq<Barrier>, origin: map<Name, Bytes>) {
    match r
    case Looking(id, b) => b < |barriers| && barriers[b].result.None?
    case Fetched(id, b, lookup) => b < |barriers| && barriers[b].result == Some(lookup) && TrueTo(origin, id, lookup)
    case Settled(id, b, lookup) => b < |barriers| && barriers[b] == Barrier(id, Some(lookup), Settling) &&
      TrueTo(origin, id, lookup)
    case Waiting(id, b) => b < |barriers| && barriers[b].owner == id
    case Answered(id, via, lookup) => TrueTo(origin, id, lookup) &&
      (via.Some? ==> via.value < |barriers| && barriers[via.value] == Barrier(id, Some(lookup), Open))
    case Storing(id, bytes) => TrueTo(origin, id, Ok(bytes))
    case Finished => true
  }

  ghost predicate RequestsTrue(requests: seq<Request>, barriers: seq<Barrier>, origin: map<Name, Bytes>) {
    forall i :: 0 <= i < |requests| ==> RequestTrue(requests[i], barriers, origin)
  }

  class LruArchiveBackend {
    const limit: nat
    var cache: seq<Item>
    var current: nat
    var origin: map<Name, Bytes>
    var barriers: seq<Barrier>
    var requests: seq<Request>
    ghost var resolver: map<nat, nat>

    ghost predicate Counted()
      reads this
    {
      current == Total(cache) && current <= limit
    }

    /** What holds between any two steps of any tasks. */
    ghost predicate Valid()
      reads this
    {
      && Counted()
      && Resolvers(requests, barriers, resolver) && Entries(cache, barriers, resolver) && Guards(requests, barriers)
      && EntriesTrue(cache, origin) && BarriersTrue(barriers, origin) && RequestsTrue(requests, barriers, origin)
    }

    constructor (limit: nat)
      ensures Valid() && this.limit == limit && cache == [] && requests == [] && origin == map[]
    {
      this.limit := limit;
      cache, current, barriers, requests := [], 0, [], [];
      origin, resolver := map[], map[];
    }

    /** Pops the least recently used resolved entries until `required` bytes are free, passing
        over what is being resolved. Nothing it expects to find is ever missing. */
    method EnsureAdditionalCacheSpace(required: nat)
      requires KeysDistinct(cache) && current == Total(cache) && required <= current
      modifies this`cache, this`current
      ensures cache == Freed(old(cache), required) && Evicted(old(cache), cache, required)
      ensures current == Total(cache) && current + required <= old(current)
    {
      hide KeysDistinct, Total, Pinned, Needed, Evicted;
      ghost var was, j := cache, 0;
      FreedEvicted(was, required);
      NothingNeeded(was);
      FreedIs(was, required);
      if required == 0 {
        return;
      }
      var left := required;
      Untouched(was);
      while true
        invariant j < |was| && cache == GoneThrough(was, j)
        invariant current == Total(was) - Total(was[..j])
        invariant left > 0 && left == required - Total(was[..j]) && required <= Total(was) && j < Needed(was, required)
        decreases |was| - j
      {
        StillNeeded(was, j, required);
        GoFurther(was, j);
        var lru := cache[0];
        j := j + 1;
        if lru.1.Resolving? {
          // this entry is being resolved, we don't want to pop it
          cache := cache[1..] + [lru];
          continue;
        }
        cache := cache[1..];
        current := current - |lru.1.bytes|;
        if |lru.1.bytes| >= left {
          FreedIs(was, required);
          return;
        }
        left := left - |lru.1.bytes|;
      }
    }

    /** Makes room for `required` bytes unless they can never fit. */
    method EnsureEnoughCacheSpace(required: nat) returns (fits: bool)
      requires KeysDistinct(cache) && Counted()
      modifies this`cache, this`current
      ensures Counted() && (fits <==> required <= limit)
      ensures fits ==> current + required <= limit
      ensures KeysDistinct(cache) && (forall x :: x in cache ==> x in old(cache)) &&
        (forall x :: x in old(cache) && x.1.Resolving? ==> x in cache)
      ensures cache == MadeRoom(old(cache), limit, required) && old(Total(cache)) <= limit
      ensures RoomMade(old(cache), cache, limit, required)
    {
      hide KeysDistinct, Total, Freed, Evicted;
      if required > limit {
        return false;
      }
      var remaining := if limit < current then 0 else limit - current;
      if remaining < required {
        FreedIs(cache, required - remaining);
        EnsureAdditionalCacheSpace(required - remaining);
      }
      return true;
    }

    /** Removes an entry. The bytes of a resolved entry are only given back when it happens to be
        the least recently used one; what is being resolved has none to give back. */
    method DropFromCache(id: Name)
      requires KeysDistinct(cache) && current == Total(cache) && IndexOf(cache, id).Some?
      modifies this`cache, this`current
      ensures cache == Without(old(cache), IndexOf(old(cache), id).value) && Removed(old(cache), cache, id)
      ensures var i := IndexOf(old(cache), id).value; current == Total(cache) <==> i == 0 || Size(old(cache)[i].1) == 0
    {
      hide KeysDistinct, Total, IndexOf, Removed;
      var i := IndexOf(cache, id).value;
      TotalWithout(cache, i);
      WithoutOthers(cache, i);
      var lru := cache[0];
      if lru.0 == id && lru.1.Resolved? {
        FirstIs(cache, i);
        current := current - |lru.1.bytes|;
      }
      cache := Without(cache, i);
    }

    /** The first lock region of a lookup: a hit, a wait for somebody else's lookup, or a lookup of
        one's own. */
    method StartGet(id: Name)
      requires Valid()
      modifies this
      ensures Valid() && origin == old(origin) && |requests| == |old(requests)| + 1 &&
        requests[..|old(requests)|] == old(requests)
      ensures current == old(current) && barriers == old(barriers) + if IndexOf(old(cache), id).Some? then []
        else [Barrier(id, None, Pending)]
      ensures var r := requests[|old(requests)|];
        match IndexOf(old(cache), id)
        case None => r == Looking(id, |old(barriers)|) && cache == old(cache) + [(id, Resolving(|old(barriers)|))]
        case Some(i) =>
          && r == (match old(cache)[i].1 case Resolved(bytes) => Answered(id, None,
            Ok(bytes)) case Resolving(b) => Waiting(id, b))
          && cache == Promoted(old(cache), i, old(cache)[i].1)
      ensures var i := IndexOf(old(cache), id); i.Some? ==> Placed(old(cache), cache, id, old(cache)[i.value].1)
    {
      hide Resolvers, Entries, EntriesTrue, BarriersTrue, RequestsTrue, Total, IndexOf, Guards, KeysDistinct, Placed,
        Promoted;
      OneEntryEach(cache, barriers, resolver);
      match IndexOf(cache, id) {
        case Some(i) =>
          PromotedPlaced(cache, i, cache[i].1);
          Touched(cache, i, barriers, resolver, origin);
          var entry := cache[i].1;
          cache := Promoted(cache, i, entry);
          match entry {
            case Resolved(bytes) =>
              MoreRequests(requests, Answered(id, None, Ok(bytes)), barriers, resolver, origin);
              GuardsKept(requests, barriers, requests + [Answered(id, None, Ok(bytes))], barriers);
              requests := requests + [Answered(id, None, Ok(bytes))];
            case Resolving(barrier) =>
              // someone is already looking up this layer
              MoreRequests(requests, Waiting(id, barrier), barriers, resolver, origin);
              GuardsKept(requests, barriers, requests + [Waiting(id, barrier)], barriers);
              requests := requests + [Waiting(id, barrier)];
          }
        case None =>
          // nobody is looking this up yet
          var barrier := |barriers|;
          NewLookup(cache, barriers, requests, resolver, origin, id);
          GuardsKept(requests, barriers, requests + [Looking(id, barrier)], barriers + [Barrier(id, None, Pending)]);
          barriers := barriers + [Barrier(id, None, Pending)];
          cache := cache + [(id, Resolving(barrier))];
          resolver := resolver[barrier := |requests|];
          requests := requests + [Looking(id, barrier)];
      }
    }

    /** Asks the origin, without holding the cache, and sets the barrier's result. The origin may
        fail for reasons of its own. */
    method FetchFromOrigin(r: nat, failure: Option<nat>)
      requires Valid() && r < |requests| && requests[r].Looking?
      modifies this`barriers, this`requests
      ensures Valid() && |requests| == |old(requests)|
      ensures var id, b := old(requests)[r].id, old(requests)[r].barrier;
        requests == old(requests)[r := Fetched(id, b, if failure.Some? then Err(failure.value) else if id in origin
            then Ok(origin[id]) else Err(0))]
    {
      hide Resolvers, Entries, EntriesTrue, BarriersTrue, RequestsTrue, Total, Guards;
      var id, b := requests[r].id, requests[r].barrier;
      var lookup := if failure.Some? then Err(failure.value) else if id in origin then Ok(origin[id]) else Err(0);
      ResolverIs(requests, barriers, resolver, r);
      GotResult(cache, barriers, requests, resolver, origin, r, lookup);
      GuardsKept(requests, barriers, requests[r := Fetched(id, b, lookup)],
        barriers[b := barriers[b].(result := Some(lookup))]);
      barriers := barriers[b := barriers[b].(result := Some(lookup))];
      requests := requests[r := Fetched(id, b, lookup)];
    }

    /** The second lock region: caches what was found if it fits and gives the entry up otherwise.
        The waiting requests are let go later. */
    method FinishGet(r: nat)
      requires Valid() && r < |requests| && requests[r].Fetched?
      modifies this
      ensures Valid() && origin == old(origin)
      ensures requests == old(requests)[r := Settled(old(requests)[r].id, old(requests)[r].barrier,
        old(requests)[r].lookup)]
      ensures old(Total(cache)) <= limit && cache == AfterGet(old(cache), limit, old(requests)[r].id,
        old(requests)[r].lookup)
      ensures BroughtUpToDate(old(cache), cache, limit, old(requests)[r].id, old(requests)[r].lookup)
      ensures ResolvedInOrder(old(cache), cache, old(requests)[r].id)
      ensures var id, lookup := old(requests)[r].id, old(requests)[r].lookup;
        lookup.Ok? && |lookup.bytes| <= limit ==>
          cache != [] && cache[|cache| - 1] == (id, Resolved(lookup.bytes))
      ensures old(requests)[r].barrier < |old(barriers)| &&
        barriers == old(barriers)[old(requests)[r].barrier :=
        old(barriers)[old(requests)[r].barrier].(stage := Settling)]
    {
      hide Resolvers, Entries, EntriesTrue, BarriersTrue, RequestsTrue, Total, IndexOf, KeysDistinct, AfterGet,
        HoldsBarrier, Guards, BroughtUpToDate, ResolvedInOrder;
      var id, b, lookup := requests[r].id, requests[r].barrier, requests[r].lookup;
      OneEntryEach(cache, barriers, resolver);
      ResolverIs(requests, barriers, resolver, r);
      HasEntry(cache, barriers, resolver, b);
      EntryFound(cache, barriers, resolver, b, IndexOf(cache, id).value);
      ghost var was := cache;
      AfterGetIs(was, limit, id, lookup);
      ghost var freed, i := CacheFound(id, lookup);
      FreedEntries(was, freed, barriers, resolver, origin);
      EntryFound(freed, barriers, resolver, b, i);
      Settle(freed, barriers, requests, resolver, origin, r, i);
      GuardsSettled(requests, barriers, r);
      barriers := barriers[b := barriers[b].(stage := Settling)];
      requests := requests[r := Settled(id, b, lookup)];
      resolver := resolver - {b};
    }

    /** Lets go of the barrier, and with it of the waiting requests. */
    method ReleaseBarrier(r: nat)
      requires Valid() && r < |requests| && requests[r].Settled?
      modifies this`barriers, this`requests
      ensures Valid() && |barriers| == |old(barriers)|
      ensures var id, b, lookup := old(requests)[r].id, old(requests)[r].barrier, old(requests)[r].lookup;
        && requests == old(requests)[r := Answered(id, Some(b), lookup)]
        && b < |barriers| && barriers == old(barriers)[b := Barrier(id, Some(lookup), Open)]
    {
      hide Resolvers, Entries, EntriesTrue, BarriersTrue, RequestsTrue, Total, Guards;
      var id, b, lookup := requests[r].id, requests[r].barrier, requests[r].lookup;
      Released(cache, barriers, requests, resolver, origin, r);
      barriers := barriers[b := barriers[b].(stage := Open)];
      requests := requests[r := Answered(id, Some(b), lookup)];
    }

    /** The cache's side of that: the entry, which is there, gets its bytes or is dropped. */
    method CacheFound(id: Name, lookup: Lookup) returns (ghost freed: seq<Item>, ghost i: nat)
      requires KeysDistinct(cache) && Counted()
      requires var at := IndexOf(cache, id); at.Some? && cache[at.value].1.Resolving?
      modifies this`cache, this`current
      ensures Counted() && old(Total(cache)) <= limit && cache == AfterGet(old(cache), limit, id, lookup)
      ensures KeysDistinct(freed) && (forall x :: x in freed ==> x in old(cache)) &&
        (forall x :: x in old(cache) && x.1.Resolving? ==> x in freed)
      ensures i < |freed| && freed[i].0 == id
      ensures cache == if lookup.Ok? && |lookup.bytes| <= limit then Promoted(freed, i, Resolved(lookup.bytes))
        else Without(freed, i)
    {
      hide Total, IndexOf, KeysDistinct, MadeRoom;
      ghost var was, entry := cache, cache[IndexOf(cache, id).value];
      var fits := false;
      if lookup.Ok? {
        fits := EnsureEnoughCacheSpace(|lookup.bytes|);
      }
      freed := cache;
      StillThere(freed, entry);
      i := IndexOf(freed, id).value;
      if fits {
        PromotedIs(cache, i, Resolved(lookup.bytes));
        var at := IndexOf(cache, id).value;
        cache := Promoted(cache, at, Resolved(lookup.bytes));
        current := current + |lookup.bytes|;
      } else {
        TotalWithout(cache, i);
        DropFromCache(id);
      }
    }

    /** A waiting request goes on once its barrier is unlocked, with the resolver's result. */
    method WakeWaiter(r: nat)
      requires Valid() && r < |requests| && requests[r].Waiting? && requests[r].barrier < |barriers| &&
        barriers[requests[r].barrier].stage == Open
      modifies this`requests
      ensures Valid() && barriers[old(requests)[r].barrier].result.Some?
      ensures var id, b := old(requests)[r].id, old(requests)[r].barrier;
        requests == old(requests)[r := Answered(id, Some(b), barriers[b].result.value)]
    {
      hide Resolvers, Entries, EntriesTrue, RequestsTrue, Total, Guards;
      var id, b := requests[r].id, requests[r].barrier;
      assert barriers[b].result.Some?;
      WaiterIs(requests, barriers, origin, r);
      ReplaceRequest(requests, r, Answered(id, Some(b), barriers[b].result.value), barriers, resolver, origin);
      GuardsKept(requests, barriers, requests[r := Answered(id, Some(b), barriers[b].result.value)], barriers);
      requests := requests[r := Answered(id, Some(b), barriers[b].result.value)];
    }

    /** Layers are written once, if perhaps repeatedly with the same bytes. */
    method StoreToOrigin(id: Name, bytes: Bytes)
      requires Valid() && (id in origin ==> origin[id] == bytes)
      modifies this`origin, this`requests
      ensures Valid() && origin == old(origin)[id := bytes] && requests == old(requests) + [Storing(id, bytes)]
    {
      hide Resolvers, Entries, EntriesTrue, BarriersTrue, RequestsTrue, Total, Guards;
      MoreOrigin(cache, barriers, requests, origin, id, bytes);
      origin := origin[id := bytes];
      MoreRequests(requests, Storing(id, bytes), barriers, resolver, origin);
      GuardsKept(requests, barriers, requests + [Storing(id, bytes)], barriers);
      requests := requests + [Storing(id, bytes)];
    }

    /** The lock region of a store: caches the bytes unless the layer is cached or being looked
        up. */
    method FinishStore(r: nat)
      requires Valid() && r < |requests| && requests[r].Storing?
      modifies this`cache, this`current, this`requests
      ensures Valid() && requests == old(requests)[r := Finished] && old(Total(cache)) <= limit
      ensures var id, bytes := old(requests)[r].id, old(requests)[r].bytes;
        cache == if IndexOf(old(cache), id).None? && |bytes| <= limit
            then MadeRoom(old(cache), limit, |bytes|) + [(id, Resolved(bytes))] else old(cache)
      ensures var id, bytes := old(requests)[r].id, old(requests)[r].bytes;
        IndexOf(old(cache), id).None? && |bytes| <= limit ==>
          exists room :: RoomMade(old(cache), room, limit, |bytes|) && cache == room + [(id, Resolved(bytes))]
    {
      hide Resolvers, Entries, EntriesTrue, BarriersTrue, RequestsTrue, Total, KeysDistinct, IndexOf, Guards,
        RoomMade;
      var id, bytes := requests[r].id, requests[r].bytes;
      ghost var was := cache;
      OneEntryEach(cache, barriers, resolver);
      if IndexOf(cache, id).None? {
        ghost var before := cache;
        var fits := EnsureEnoughCacheSpace(|bytes|);
        FreedEntries(was, cache, barriers, resolver, origin);
        if fits {
          NotThere(before, cache, id);
          StoredEntry(cache, barriers, requests, resolver, origin, r);
          AppendedIs(cache, (id, Resolved(bytes)));
          cache := cache + [(id, Resolved(bytes))];
          current := current + |bytes|;
        }
      }
      ReplaceRequest(requests, r, Finished, barriers, resolver, origin);
      GuardsKept(requests, barriers, requests[r := Finished], barriers);
      requests := requests[r := Finished];
    }

    /** Evicts until at most `target` bytes are used. */
    method EvictToTarget(target: nat)
      requires Valid()
      modifies this`cache, this`current
      ensures Valid() && (limit != 0 ==> current <= target) && old(current == Total(cache))
      ensures cache == if limit != 0 && old(current) > target then Freed(old(cache), old(current) - target)
        else old(cache)
      ensures limit != 0 && old(current) > target ==> Evicted(old(cache), cache, old(current) - target)
    {
      hide Resolvers, Entries, EntriesTrue, BarriersTrue, RequestsTrue, Total, KeysDistinct, Freed, Guards, Evicted;
      if limit == 0 {
        return;
      }
      if current > target {
        OneEntryEach(cache, barriers, resolver);
        ghost var was := cache;
        FreedIs(cache, current - target);
        EnsureAdditionalCacheSpace(current - target);
        FreedEntries(was, cache, barriers, resolver, origin);
      }
    }
  }

  /* ---- what each step keeps ---- */

  lemma OneEntryEach(items: seq<Item>, barriers: seq<Barrier>, resolver: map<nat, nat>)
    requires Entries(items, barriers, resolver)
    ensures KeysDistinct(items)
  {
  }

  /** Moving an entry to the recent end. */
  lemma Touched(items: seq<Item>, i: nat, barriers: seq<Barrier>, resolver: map<nat, nat>, origin: map<Name, Bytes>)
    requires i < |items| && Entries(items, barriers, resolver) && EntriesTrue(items, origin)
    ensures var after := Promoted(items, i, items[i].1);
      Entries(after, barriers, resolver) && EntriesTrue(after, origin) && Total(after) == Total(items)
    ensures items[i].1.Resolved? ==> TrueTo(origin, items[i].0, Ok(items[i].1.bytes))
    ensures items[i].1.Resolving? ==>
      items[i].1.barrier < |barriers| && barriers[items[i].1.barrier].owner == items[i].0
  {
    hide Promoted, Total, KeysDistinct;
    PromotedIs(items, i, items[i].1);
    assert items[i] in items;
    var after := Promoted(items, i, items[i].1);
    forall x ensures x in after <==> x in items {
      if x in items && x.0 == items[i].0 {
        SameKey(items, i, x);
      }
    }
  }

  lemma MoreRequests(requests: seq<Request>, r: Request, barriers: seq<Barrier>, resolver: map<nat, nat>,
      origin: map<Name, Bytes>)
    requires Resolvers(requests, barriers, resolver) && RequestsTrue(requests, barriers, origin)
    requires !Active(r) && RequestTrue(r, barriers, origin)
    ensures Resolvers(requests + [r], barriers, resolver) && RequestsTrue(requests + [r], barriers, origin)
  {
    hide RequestTrue;
    var after := requests + [r];
    forall b: nat | b in resolver ensures HoldsBarrier(after, barriers, resolver[b], b) {
      assert HoldsBarrier(requests, barriers, resolver[b], b);
    }
  }

  lemma ReplaceRequest(requests: seq<Request>, i: nat, r: Request, barriers: seq<Barrier>, resolver: map<nat, nat>,
      origin: map<Name, Bytes>)
    requires Resolvers(requests, barriers, resolver) && RequestsTrue(requests, barriers, origin)
    requires i < |requests| && !Active(requests[i]) && !Active(r) && RequestTrue(r, barriers, origin)
    ensures Resolvers(requests[i := r], barriers, resolver) && RequestsTrue(requests[i := r], barriers, origin)
  {
    hide RequestTrue;
    var after := requests[i := r];
    forall b: nat | b in resolver ensures HoldsBarrier(after, barriers, resolver[b], b) {
      assert HoldsBarrier(requests, barriers, resolver[b], b);
    }
  }

  lemma ResolverIs(requests: seq<Request>, barriers: seq<Barrier>, resolver: map<nat, nat>, r: nat)
    requires Resolvers(requests, barriers, resolver) && r < |requests| && Active(requests[r])
    ensures var b := requests[r].barrier;
      b in resolver && resolver[b] == r && b < |barriers| && barriers[b].stage == Pending &&
          barriers[b].owner == requests[r].id
    ensures forall i :: 0 <= i < |requests| && i != r && Active(requests[i]) ==>
      requests[i].barrier != requests[r].barrier
  {
    var b := requests[r].barrier;
    assert HoldsBarrier(requests, barriers, resolver[b], b);
  }

  lemma LookupIsTrue(requests: seq<Request>, barriers: seq<Barrier>, origin: map<Name, Bytes>, r: nat)
    requires RequestsTrue(requests, barriers, origin) && r < |requests| && requests[r].Fetched?
    ensures requests[r].barrier < |barriers| && barriers[requests[r].barrier].result == Some(requests[r].lookup)
    ensures TrueTo(origin, requests[r].id, requests[r].lookup)
  {
    assert RequestTrue(requests[r], barriers, origin);
  }

  lemma WaiterIs(requests: seq<Request>, barriers: seq<Barrier>, origin: map<Name, Bytes>, r: nat)
    requires RequestsTrue(requests, barriers, origin) && r < |requests| && requests[r].Waiting?
    ensures requests[r].barrier < |barriers| && barriers[requests[r].barrier].owner == requests[r].id
  {
    assert RequestTrue(requests[r], barriers, origin);
  }

  /** A new lookup has a new barrier, locked by the request itself. */
  lemma NewLookup(items: seq<Item>, barriers: seq<Barrier>, requests: seq<Request>, resolver: map<nat, nat>,
      origin: map<Name, Bytes>, id: Name)
    requires Resolvers(requests, barriers, resolver) && Entries(items, barriers, resolver)
    requires EntriesTrue(items, origin) && BarriersTrue(barriers, origin) && RequestsTrue(requests, barriers, origin)
    requires forall i :: 0 <= i < |items| ==> items[i].0 != id
    ensures var b := |barriers|;
      var barriers', requests', resolver', items' := barriers + [Barrier(id, None, Pending)],
      requests + [Looking(id, b)], resolver[b := |requests|], items + [(id, Resolving(b))];
      && Resolvers(requests', barriers', resolver') && Entries(items', barriers', resolver')
      && EntriesTrue(items', origin) && BarriersTrue(barriers', origin) && RequestsTrue(requests', barriers', origin)
      && Total(items') == Total(items)
  {
    hide Resolvers, Entries, EntriesTrue, BarriersTrue, RequestsTrue, Total;
    NewRequest(barriers, requests, resolver, origin, id);
    NewEntry(items, barriers, requests, resolver, origin, id);
  }

  lemma NewRequest(barriers: seq<Barrier>, requests: seq<Request>, resolver: map<nat, nat>, origin: map<Name, Bytes>,
      id: Name)
    requires Resolvers(requests, barriers, resolver) && BarriersTrue(barriers, origin) &&
      RequestsTrue(requests, barriers, origin)
    ensures var b := |barriers|;
      var barriers', requests', resolver' := barriers + [Barrier(id, None, Pending)], requests + [Looking(id, b)],
      resolver[b := |requests|];
      Resolvers(requests', barriers', resolver') && BarriersTrue(barriers', origin) &&
          RequestsTrue(requests', barriers', origin)
  {
    hide TrueTo;
    var b := |barriers|;
    var barriers', requests', resolver' := barriers + [Barrier(id, None, Pending)], requests + [Looking(id, b)],
      resolver[b := |requests|];
    forall c: nat | c in resolver' ensures HoldsBarrier(requests', barriers', resolver'[c], c) {
      if c != b {
        assert HoldsBarrier(requests, barriers, resolver[c], c);
      }
    }
    forall i | 0 <= i < |requests'| ensures RequestTrue(requests'[i], barriers', origin) {
      if i < |requests| {
        assert RequestTrue(requests[i], barriers, origin);
      }
    }
  }

  lemma NewEntry(items: seq<Item>, barriers: seq<Barrier>, requests: seq<Request>, resolver: map<nat, nat>,
      origin: map<Name, Bytes>, id: Name)
    requires Resolvers(requests, barriers, resolver) && Entries(items, barriers, resolver) && EntriesTrue(items, origin)
    requires forall i :: 0 <= i < |items| ==> items[i].0 != id
    ensures var b := |barriers|;
      var barriers', resolver', items' := barriers + [Barrier(id, None, Pending)], resolver[b := |requests|],
      items + [(id, Resolving(b))];
      Entries(items', barriers', resolver') && EntriesTrue(items', origin) && Total(items') == Total(items)
  {
    hide TrueTo, Total, KeysDistinct, Resolvers;
    ResolversInRange(requests, barriers, resolver);
    AppendedIs(items, (id, Resolving(|barriers|)));
  }

  lemma ResolversInRange(requests: seq<Request>, barriers: seq<Barrier>, resolver: map<nat, nat>)
    requires Resolvers(requests, barriers, resolver)
    ensures forall b: nat :: b in resolver ==> b < |barriers|
  {
    hide HoldsBarrier;
  }

  /** Setting the result of one's own barrier. */
  lemma GotResult(items: seq<Item>, barriers: seq<Barrier>, requests: seq<Request>, resolver: map<nat, nat>,
      origin: map<Name, Bytes>, r: nat, lookup: Lookup)
    requires Resolvers(requests, barriers, resolver) && Entries(items, barriers, resolver)
    requires BarriersTrue(barriers, origin) && RequestsTrue(requests, barriers, origin)
    requires r < |requests| && requests[r].Looking? && TrueTo(origin, requests[r].id, lookup) &&
      requests[r].barrier < |barriers|
    ensures var id, b := requests[r].id, requests[r].barrier;
      var barriers', requests' := barriers[b := barriers[b].(result := Some(lookup))],
      requests[r := Fetched(id, b, lookup)];
      && Resolvers(requests', barriers', resolver) && Entries(items, barriers', resolver)
      && BarriersTrue(barriers', origin) && RequestsTrue(requests', barriers', origin)
  {
    hide TrueTo, KeysDistinct;
    ResolverIs(requests, barriers, resolver, r);
    var id, b := requests[r].id, requests[r].barrier;
    var barriers', requests' := barriers[b := barriers[b].(result := Some(lookup))],
      requests[r := Fetched(id, b, lookup)];
    forall c: nat | c in resolver ensures HoldsBarrier(requests', barriers', resolver[c], c) {
      assert HoldsBarrier(requests, barriers, resolver[c], c);
    }
    forall i | 0 <= i < |requests'| ensures RequestTrue(requests'[i], barriers', origin) {
      assert RequestTrue(requests[i], barriers, origin);
    }
  }

  lemma HasEntry(items: seq<Item>, barriers: seq<Barrier>, resolver: map<nat, nat>, b: nat)
    requires Entries(items, barriers, resolver) && b in resolver && b < |barriers|
    ensures IndexOf(items, barriers[b].owner).Some?
  {
    assert (barriers[b].owner, Resolving(b)) in items;
  }

  lemma EntryFound(items: seq<Item>, barriers: seq<Barrier>, resolver: map<nat, nat>, b: nat, i: nat)
    requires Entries(items, barriers, resolver) && b in resolver && b < |barriers| && i < |items| &&
      items[i].0 == barriers[b].owner
    ensures items[i] == (barriers[b].owner, Resolving(b))
  {
    SameKey(items, i, (barriers[b].owner, Resolving(b)));
  }

  /** Evicting resolved entries. */
  lemma FreedEntries(was: seq<Item>, items: seq<Item>, barriers: seq<Barrier>, resolver: map<nat, nat>,
      origin: map<Name, Bytes>)
    requires Entries(was, barriers, resolver) && EntriesTrue(was, origin) && KeysDistinct(items)
    requires forall x :: x in items ==> x in was
    requires forall x :: x in was && x.1.Resolving? ==> x in items
    ensures Entries(items, barriers, resolver) && EntriesTrue(items, origin)
  {
    hide KeysDistinct, TrueTo;
  }

  /** Unlocking one's own barrier, with the entry replaced by what was found, or removed. */
  lemma Settle(items: seq<Item>, barriers: seq<Barrier>, requests: seq<Request>, resolver: map<nat, nat>,
      origin: map<Name, Bytes>, r: nat, i: nat)
    requires Resolvers(requests, barriers, resolver) && Entries(items, barriers, resolver)
    requires EntriesTrue(items, origin) && BarriersTrue(barriers, origin) && RequestsTrue(requests, barriers, origin)
    requires r < |requests| && requests[r].Fetched? && requests[r].barrier < |barriers|
    requires i < |items| && items[i] == (requests[r].id, Resolving(requests[r].barrier))
    ensures var id, b, lookup := requests[r].id, requests[r].barrier, requests[r].lookup;
      var barriers', requests', resolver' := barriers[b := barriers[b].(stage := Settling)],
        requests[r := Settled(id, b, lookup)], resolver - {b};
      && Resolvers(requests', barriers', resolver') && BarriersTrue(barriers', origin) &&
        RequestsTrue(requests', barriers', origin)
      && Entries(Without(items, i), barriers', resolver') && EntriesTrue(Without(items, i), origin)
      && (lookup.Ok? ==>
        Entries(Promoted(items, i, Resolved(lookup.bytes)), barriers', resolver') &&
        EntriesTrue(Promoted(items, i, Resolved(lookup.bytes)), origin))
  {
    hide Entries, EntriesTrue, Without, Promoted;
    var id, b, lookup := requests[r].id, requests[r].barrier, requests[r].lookup;
    var barriers', requests', resolver' := barriers[b := barriers[b].(stage := Settling)],
      requests[r := Settled(id, b, lookup)], resolver - {b};
    ResolverIs(requests, barriers, resolver, r);
    LookupIsTrue(requests, barriers, origin, r);
    SettleRequests(barriers, requests, resolver, origin, r);
    SettleEntries(items, barriers, resolver, origin, b, i);
    if lookup.Ok? {
      SettleResolved(items, barriers, resolver, origin, b, i, lookup.bytes);
    }
  }

  lemma SettleRequests(barriers: seq<Barrier>, requests: seq<Request>, resolver: map<nat, nat>, origin: map<Name,
      Bytes>, r: nat)
    requires Resolvers(requests, barriers, resolver) && BarriersTrue(barriers, origin) &&
      RequestsTrue(requests, barriers, origin)
    requires r < |requests| && requests[r].Fetched? && requests[r].barrier < |barriers|
    ensures var id, b, lookup := requests[r].id, requests[r].barrier, requests[r].lookup;
      var barriers', requests', resolver' := barriers[b := barriers[b].(stage := Settling)],
        requests[r := Settled(id, b, lookup)], resolver - {b};
      Resolvers(requests', barriers', resolver') && BarriersTrue(barriers', origin) &&
          RequestsTrue(requests', barriers', origin)
  {
    hide TrueTo;
    var id, b, lookup := requests[r].id, requests[r].barrier, requests[r].lookup;
    var barriers', requests', resolver' := barriers[b := barriers[b].(stage := Settling)],
      requests[r := Settled(id, b, lookup)], resolver - {b};
    ResolverIs(requests, barriers, resolver, r);
    LookupIsTrue(requests, barriers, origin, r);
    forall c: nat | c in resolver' ensures HoldsBarrier(requests', barriers', resolver'[c], c) {
      assert HoldsBarrier(requests, barriers, resolver[c], c);
    }
    forall k | 0 <= k < |requests'| ensures RequestTrue(requests'[k], barriers', origin) {
      assert RequestTrue(requests[k], barriers, origin);
    }
  }

  lemma SettleEntries(items: seq<Item>, barriers: seq<Barrier>, resolver: map<nat, nat>, origin: map<Name, Bytes>,
      b: nat, i: nat)
    requires Entries(items, barriers, resolver) && EntriesTrue(items, origin) && b in resolver && b < |barriers|
    requires i < |items| && items[i] == (barriers[b].owner, Resolving(b))
    ensures Entries(Without(items, i), barriers[b := barriers[b].(stage := Settling)], resolver - {b}) &&
      EntriesTrue(Without(items, i), origin)
  {
    hide KeysDistinct, Without, TrueTo;
    var after := Without(items, i);
    WithoutElement(items, i, items[i]);
    forall x ensures x in after <==> x in items && x.0 != items[i].0 {
      WithoutElement(items, i, x);
    }
    OtherOwners(items, barriers, resolver, b, i);
  }

  /** The other barriers belong to other layers. */
  lemma OtherOwners(items: seq<Item>, barriers: seq<Barrier>, resolver: map<nat, nat>, b: nat, i: nat)
    requires Entries(items, barriers, resolver) && b in resolver && b < |barriers|
    requires i < |items| && items[i] == (barriers[b].owner, Resolving(b))
    ensures forall c: nat :: c in resolver && c < |barriers| && c != b ==> barriers[c].owner != barriers[b].owner
  {
    forall c: nat | c in resolver && c < |barriers| && c != b ensures barriers[c].owner != barriers[b].owner {
      if barriers[c].owner == barriers[b].owner {
        SameKey(items, i, (barriers[c].owner, Resolving(c)));
      }
    }
  }

  lemma SettleResolved(items: seq<Item>, barriers: seq<Barrier>, resolver: map<nat, nat>, origin: map<Name, Bytes>,
      b: nat, i: nat, bytes: Bytes)
    requires Entries(items, barriers, resolver) && EntriesTrue(items, origin) && b in resolver && b < |barriers|
    requires i < |items| && items[i] == (barriers[b].owner, Resolving(b)) &&
      TrueTo(origin, barriers[b].owner, Ok(bytes))
    ensures var after := Promoted(items, i, Resolved(bytes));
      Entries(after, barriers[b := barriers[b].(stage := Settling)], resolver - {b}) && EntriesTrue(after, origin)
  {
    hide KeysDistinct, Promoted, TrueTo;
    PromotedIs(items, i, Resolved(bytes));
    OtherOwners(items, barriers, resolver, b, i);
  }

  /** Steps that settle and release nothing. */
  lemma GuardsKept(requests: seq<Request>, barriers: seq<Barrier>, requests': seq<Request>, barriers': seq<Barrier>)
    requires Guards(requests, barriers) && |requests| <= |requests'| && |barriers| <= |barriers'|
    requires forall i :: 0 <= i < |requests| && (requests[i].Settled? || requests'[i].Settled?) ==>
      requests'[i] == requests[i]
    requires forall i :: |requests| <= i < |requests'| ==> !requests'[i].Settled?
    requires forall b :: 0 <= b < |barriers| ==> barriers'[b].stage == barriers[b].stage
    requires forall b :: |barriers| <= b < |barriers'| ==> barriers'[b].stage != Settling
    ensures Guards(requests', barriers')
  {
    forall b: nat | b < |barriers'| && barriers'[b].stage == Settling ensures exists k: nat ::
      WillRelease(requests', k, b)
    {
      var k: nat :| WillRelease(requests, k, b);
      assert WillRelease(requests', k, b);
    }
  }

  lemma GuardsSettled(requests: seq<Request>, barriers: seq<Barrier>, r: nat)
    requires Guards(requests, barriers) && r < |requests| && requests[r].Fetched?
    requires requests[r].barrier < |barriers| && barriers[requests[r].barrier].stage == Pending
    ensures var id, b, lookup := requests[r].id, requests[r].barrier, requests[r].lookup;
      Guards(requests[r := Settled(id, b, lookup)], barriers[b := barriers[b].(stage := Settling)])
  {
    var id, b, lookup := requests[r].id, requests[r].barrier, requests[r].lookup;
    var requests', barriers' := requests[r := Settled(id, b, lookup)], barriers[b := barriers[b].(stage := Settling)];
    forall c: nat | c < |barriers'| && barriers'[c].stage == Settling ensures exists k: nat ::
      WillRelease(requests', k, c)
    {
      if c == b {
        assert WillRelease(requests', r, c);
      } else {
        var k: nat :| WillRelease(requests, k, c);
        assert WillRelease(requests', k, c);
      }
    }
  }

  /** Letting go of a barrier. */
  lemma Released(items: seq<Item>, barriers: seq<Barrier>, requests: seq<Request>, resolver: map<nat, nat>,
      origin: map<Name, Bytes>, r: nat)
    requires Resolvers(requests, barriers, resolver) && Entries(items, barriers, resolver) && Guards(requests, barriers)
    requires BarriersTrue(barriers, origin) && RequestsTrue(requests, barriers, origin)
    requires r < |requests| && requests[r].Settled?
    ensures var id, b, lookup := requests[r].id, requests[r].barrier, requests[r].lookup;
      b < |barriers| && barriers[b] == Barrier(id, Some(lookup), Settling)
    ensures var id, b, lookup := requests[r].id, requests[r].barrier, requests[r].lookup;
      var barriers', requests' := barriers[b := barriers[b].(stage := Open)],
        requests[r := Answered(id, Some(b), lookup)];
      && Resolvers(requests', barriers', resolver) && Entries(items, barriers', resolver)
      && Guards(requests', barriers') && BarriersTrue(barriers', origin) && RequestsTrue(requests', barriers', origin)
  {
    hide TrueTo, KeysDistinct;
    assert RequestTrue(requests[r], barriers, origin);
    var id, b, lookup := requests[r].id, requests[r].barrier, requests[r].lookup;
    var barriers', requests' := barriers[b := barriers[b].(stage := Open)],
      requests[r := Answered(id, Some(b), lookup)];
    forall c: nat | c in resolver ensures HoldsBarrier(requests', barriers', resolver[c], c) {
      assert HoldsBarrier(requests, barriers, resolver[c], c);
    }
    forall k | 0 <= k < |requests'| ensures RequestTrue(requests'[k], barriers', origin) {
      assert RequestTrue(requests[k], barriers, origin);
    }
    GuardsReleased(requests, barriers, r);
  }

  lemma GuardsReleased(requests: seq<Request>, barriers: seq<Barrier>, r: nat)
    requires Guards(requests, barriers) && r < |requests| && requests[r].Settled? && requests[r].barrier < |barriers|
    ensures var id, b, lookup := requests[r].id, requests[r].barrier, requests[r].lookup;
      Guards(requests[r := Answered(id, Some(b), lookup)], barriers[b := barriers[b].(stage := Open)])
  {
    var id, b, lookup := requests[r].id, requests[r].barrier, requests[r].lookup;
    var requests', barriers' := requests[r := Answered(id, Some(b), lookup)],
      barriers[b := barriers[b].(stage := Open)];
    forall c: nat | c < |barriers'| && barriers'[c].stage == Settling ensures exists k: nat ::
      WillRelease(requests', k, c)
    {
      var k: nat :| WillRelease(requests, k, c);
      assert WillRelease(requests', k, c);
    }
  }

  /** Writing a layer the origin did not have. */
  lemma MoreOrigin(items: seq<Item>, barriers: seq<Barrier>, requests: seq<Request>, origin: map<Name, Bytes>,
      id: Name, bytes: Bytes)
    requires EntriesTrue(items, origin) && BarriersTrue(barriers, origin) &&
      RequestsTrue(requests, barriers, origin) && (id in origin ==> origin[id] == bytes)
    ensures var after := origin[id := bytes];
      EntriesTrue(items, after) && BarriersTrue(barriers, after) && RequestsTrue(requests, barriers, after)
  {
    var after := origin[id := bytes];
    forall i | 0 <= i < |requests| ensures RequestTrue(requests[i], barriers, after) {
      assert RequestTrue(requests[i], barriers, origin);
    }
  }

  lemma StoredEntry(items: seq<Item>, barriers: seq<Barrier>, requests: seq<Request>, resolver: map<nat, nat>,
      origin: map<Name, Bytes>, r: nat)
    requires Entries(items, barriers, resolver) && EntriesTrue(items, origin) &&
      RequestsTrue(requests, barriers, origin)
    requires r < |requests| && requests[r].Storing? && forall i :: 0 <= i < |items| ==> items[i].0 != requests[r].id
    ensures var after := items + [(requests[r].id, Resolved(requests[r].bytes))];
      Entries(after, barriers, resolver) && EntriesTrue(after, origin)
  {
    hide KeysDistinct, TrueTo;
    assert RequestTrue(requests[r], barriers, origin);
    AppendedIs(items, (requests[r].id, Resolved(requests[r].bytes)));
  }

  /* ---- what callers see ---- */

  /** Between any two steps: at most one request resolves a layer, somebody resolves every barrier
      that is waited for, and requests answered through the same barrier got the same. */
  lemma Guarantees(requests: seq<Request>, barriers: seq<Barrier>, resolver: map<nat, nat>, items: seq<Item>,
      origin: map<Name, Bytes>, i: nat, j: nat)
    requires Resolvers(requests, barriers, resolver) && Entries(items, barriers, resolver) &&
      Guards(requests, barriers) && BarriersTrue(barriers, origin) && RequestsTrue(requests, barriers, origin)
    requires i < |requests| && j < |requests|
    ensures Active(requests[i]) && Active(requests[j]) && requests[i].id == requests[j].id ==> i == j
    ensures requests[i].Waiting? ==> var b := requests[i].barrier;
      b < |barriers| && match barriers[b].stage
        case Pending => exists k: nat :: HoldsBarrier(requests, barriers, k, b)
        case Settling => barriers[b].result.Some? && exists k: nat :: WillRelease(requests, k, b)
        case Open => barriers[b].result.Some?
    ensures
      && requests[i].Answered? && requests[j].Answered? && requests[i].via.Some?
      && requests[i].via == requests[j].via
      ==> requests[i].lookup == requests[j].lookup && requests[i].id == requests[j].id
    ensures requests[i].Answered? ==> TrueTo(origin, requests[i].id, requests[i].lookup)
  {
    hide KeysDistinct;
    assert RequestTrue(requests[i], barriers, origin) && RequestTrue(requests[j], barriers, origin);
    if Active(requests[i]) && Active(requests[j]) && requests[i].id == requests[j].id {
      OneResolver(requests, barriers, resolver, items, i, j);
    }
    if requests[i].Waiting? && requests[i].barrier < |barriers| && barriers[requests[i].barrier].stage == Pending {
      assert HoldsBarrier(requests, barriers, resolver[requests[i].barrier], requests[i].barrier);
    }
  }

  lemma OneResolver(requests: seq<Request>, barriers: seq<Barrier>, resolver: map<nat, nat>, items: seq<Item>, i: nat,
      j: nat)
    requires Resolvers(requests, barriers, resolver) && Entries(items, barriers, resolver)
    requires i < |requests| && j < |requests| && Active(requests[i]) && Active(requests[j]) &&
      requests[i].id == requests[j].id
    ensures i == j
  {
    ResolverIs(requests, barriers, resolver, i);
    ResolverIs(requests, barriers, resolver, j);
    var a, b := requests[i].barrier, requests[j].barrier;
    assert (barriers[a].owner, Resolving(a)) in items && (barriers[b].owner, Resolving(b)) in items;
    var k :| 0 <= k < |items| && items[k] == (barriers[a].owner, Resolving(a));
    SameKey(items, k, (barriers[b].owner, Resolving(b)));
  }

  /** A hit followed by an eviction: the entry hit stays as long as another resolved one does. */
  method HitThenEvict(backend: LruArchiveBackend, id: Name, target: nat)
    requires backend.Valid() && exists bytes :: (id, Resolved(bytes)) in backend.cache
    modifies backend
    ensures backend.Valid()
    ensures (exists x :: x in backend.cache && x.1.Resolved?) ==>
      exists bytes :: (id, Resolved(bytes)) in backend.cache
  {
    hide Resolvers, Entries, EntriesTrue, BarriersTrue, RequestsTrue, Total, Guards, KeysDistinct, IndexOf, Evicted,
      Freed, Promoted, OthersKept;
    ghost var bytes :| (id, Resolved(bytes)) in backend.cache;
    OneEntryEach(backend.cache, backend.barriers, backend.resolver);
    StillThere(backend.cache, (id, Resolved(bytes)));
    backend.StartGet(id);
    OneEntryEach(backend.cache, backend.barriers, backend.resolver);
    ghost var hit := backend.cache;
    assert hit[|hit| - 1] == (id, Resolved(bytes)) && hit[|hit| - 1] in hit;
    ghost var required := if backend.current > target then backend.current - target else 0;
    backend.EvictToTarget(target);
    if x :| x in backend.cache && x.1.Resolved? {
      if backend.cache != hit {
        MostRecentStays(hit, backend.cache, required, x);
      }
      assert (id, Resolved(bytes)) in backend.cache;
    }
  }

  /* ---- every interleaving ---- */

  datatype Step =
    | Get(id: Name)
    | Fetch(r: nat, failure: Option<nat>)
    | Finish(r: nat)
    | Release(r: nat)
    | Wake(r: nat)
    | Store(id: Name, bytes: Bytes)
    | FinishStoring(r: nat)
    | Evict(target: nat)

  /** Takes a step, if it can be taken now. */
  method Take(backend: LruArchiveBackend, step: Step)
    requires backend.Valid()
    modifies backend
    ensures backend.Valid() && |old(backend.requests)| <= |backend.requests|
    ensures forall i :: 0 <= i < |old(backend.requests)| && old(backend.requests)[i].Answered? ==>
      backend.requests[i] == old(backend.requests)[i]
    ensures forall id :: id in old(backend.origin) ==>
      id in backend.origin && backend.origin[id] == old(backend.origin)[id]
  {
    hide Resolvers, Entries, EntriesTrue, BarriersTrue, RequestsTrue, Total, Guards;
    match step {
      case Get(id) =>
        ghost var before := backend.requests;
        backend.StartGet(id);
        assert forall i :: 0 <= i < |before| ==> backend.requests[..|before|][i] == before[i];
      case Fetch(r, failure) =>
        if r < |backend.requests| && backend.requests[r].Looking? {
          backend.FetchFromOrigin(r, failure);
        }
      case Finish(r) =>
        if r < |backend.requests| && backend.requests[r].Fetched? {
          backend.FinishGet(r);
        }
      case Release(r) =>
        if r < |backend.requests| && backend.requests[r].Settled? {
          backend.ReleaseBarrier(r);
        }
      case Wake(r) =>
        if r < |backend.requests| && backend.requests[r].Waiting? {
          WaiterIs(backend.requests, backend.barriers, backend.origin, r);
          if backend.barriers[backend.requests[r].barrier].stage == Open {
            backend.WakeWaiter(r);
          }
        }
      case Store(id, bytes) =>
        if id in backend.origin ==> backend.origin[id] == bytes {
          backend.StoreToOrigin(id, bytes);
        }
      case FinishStoring(r) =>
        if r < |backend.requests| && backend.requests[r].Storing? {
          backend.FinishStore(r);
        }
      case Evict(target) =>
        backend.EvictToTarget(target);
    }
  }

  /** Whatever the tasks do in whatever order, the books stay balanced, and every answer given is
      the origin's and stays so. */
  method Interleave(backend: LruArchiveBackend, steps: seq<Step>)
    requires backend.Valid()
    modifies backend
    ensures backend.Valid() && backend.current == Total(backend.cache) <= backend.limit
    ensures forall i :: 0 <= i < |backend.requests| && backend.requests[i].Answered? ==>
      TrueTo(backend.origin, backend.requests[i].id, backend.requests[i].lookup)
    ensures |old(backend.requests)| <= |backend.requests|
    ensures forall i :: 0 <= i < |old(backend.requests)| && old(backend.requests)[i].Answered? ==>
      backend.requests[i] == old(backend.requests)[i]
  {
    hide Resolvers, Entries, EntriesTrue, BarriersTrue, RequestsTrue, Total, Guards;
    for k := 0 to |steps|
      invariant backend.Valid()
      invariant |old(backend.requests)| <= |backend.requests|
      invariant forall i :: 0 <= i < |old(backend.requests)| && old(backend.requests)[i].Answered? ==>
        backend.requests[i] == old(backend.requests)[i]
    {
      Take(backend, steps[k]);
    }
    forall i | 0 <= i < |backend.requests| && backend.requests[i].Answered? ensures TrueTo(backend.origin,
      backend.requests[i].id, backend.requests[i].lookup) {
      AnswerIs(backend.requests, backend.barriers, backend.origin, i);
    }
  }

  lemma AnswerIs(requests: seq<Request>, barriers: seq<Barrier>, origin: map<Name, Bytes>, i: nat)
    requires RequestsTrue(requests, barriers, origin) && i < |requests| && requests[i].Answered?
    ensures TrueTo(origin, requests[i].id, requests[i].lookup)
  {
    assert RequestTrue(requests[i], barriers, origin);
  }
}
