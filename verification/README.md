# terminusdb-store: a verified model

terminusdb-store keeps a graph as a stack of immutable layers. A base layer holds triples; a
child layer holds sorted additions and removals relative to its parent, and the dictionary
entries that are new in it. Reads go through succinct adjacency lists, merge iterators and id
maps, and layers can be rolled up, squashed, merged, cached and archived. None of that may
change what a layer means. This project models the code behind it and proves that it does not.

The specification is the fold `S = (S_parent - removals) + additions` over the layers
(`StackSemantics`), and, in strings, the set a layer says (`StringTriples.Meaning`). Everything
else is proved against these two.

How the modules build on each other:

- `Sorting`, `Triples`, `StackSemantics`: orders, merging runs, the fold and the laws of queues of
  additions and removals.
- `AdjacencyLists`, `TripleIndexes`, `TripleFileBuilders`, `SubjectIterators`, `Lookups`,
  `ObjectIndexes`, `ObjectIterators`, `PredicateIterators`, `TripleStreams`: one layer's files, how
  they are written and every way they are read. `AdjacencyLists` states how the succinct lists of
  the tdb_succinct library behave.
- `LayerIterators`, `MergedIterators`, `Queries`, `LayerQueries`, `NetIterators`, `NetOfStacks`,
  `ValueRanges`: queries over a stack, and the difference between a layer and its ancestor.
- `Dictionaries`, `InternalLayers`, `IdTranslation`, `StringTriples`: strings, ids and id maps.
- `Remapping`, `Numberings`, `Compaction`, `Commits`, `LayerFileBuilders`, `LayerBuilders`, `Diffs`:
  committing a layer, and applying a diff.
- `Rollups`, `Squashes`, `RollupBounds`, `ChangeStreams`, `RollupsUpto`, `BaseMerges`,
  `MappedMerges`: the rewrites that are to keep the meaning.
- `Stores`, `LayerStores`, `StoreRuns`: the loader, which substitutes rollups and consults the cache,
  and whole runs of a store.
- `PredicateZero`, `RollupExamples`: concrete layers and stores at which something goes wrong.
- `RecencyLists`, `LruCaches`, `Archives`: the byte cache in front of an archive store, as interleaved steps, and
  the archive file format.

Objects the source mutates are classes (builders, iterators, caches, the store); values are
datatypes. Clocks, randomness and I/O do not appear: fresh layer names, dead weak references and
failures of the origin are inputs or nondeterministic choices.

Where the code does something other than its documentation or its purpose suggests, the model
follows the code and states exactly when the property holds:

- The loader, given a rollup that has a rollup itself, returns that one under its own name
  (`LayerStores.LoadedNameIff`, `RollupExamples.MisnamedExample`). Whole runs are therefore stated
  for stores in which no rollup has a rollup; `StoreRuns.RegisteredChainsIff` says which steps keep
  it so.
- `dictionary_rollup_upto` numbers the predicates of loaded layers by the map of their nodes and
  values. The child written has the layer's ids, and the store stays valid, exactly when that map
  agrees with the predicates' own (`Rollups.RollupDictionary`, `RollupsUpto.DeltaRollupUpto`,
  `StoreRuns.LayerStore.RollupUpto`). Rolling up a rolled-up layer once more can fail this
  (`RollupExamples.MisreadRollup`).
- `safe_upto_bound` can return the layer's own name, after which reading the layers above it panics
  (`RollupBounds.BoundIsSafe`, `RollupBounds.RolledUpToBaseIsBlocked`, and, as it comes up through
  `rollup_upto`, `RollupExamples.BlockedExample`).
- `merge_base_layers` reads no id maps. Rolled-up inputs are merged as what they say exactly when
  their maps keep their triples, and can also make it panic (`MappedMerges.SaysTheSameIff`,
  `MappedMerges.MergeBaseLayers`, `MappedMerges.MisreadMerge`, `MappedMerges.StoppedMerge`).
- `triples_p(0)` yields the wrong thing exactly when some layer holds a stub, which is when a dense
  layer uses a subject and not an earlier one (`LayerQueries.TriplesP`, `PredicateZero.HasStubIff`,
  `PredicateZero.StubExample`).
- A diff speaks in string triples, whose subjects are nodes. A layer can say more, through id
  triples, and then applying a diff gives the other layer exactly when both agree on the rest
  (`Diffs.CommitDiff`).
- `drop_from_cache` gives bytes back only for the least recent entry
  (`LruCaches.LruArchiveBackend.DropFromCache`); its callers only drop entries that hold none.

To verify: `dafny verify dfyconfig.toml`.

## Model

| member | source | states |
|---|---|---|
| `StackSemantics.YieldStep` | src/layer/internal/subject_iterator.rs:273-308 | an addition no higher layer removes belongs to the stack; taking it out of the queue leaves a well-formed stack whose meaning lacks just that triple |
| `StackSemantics.CancelStep` | src/layer/internal/subject_iterator.rs:284-303 | an addition and the removal of it above cancel: the queue stays a well-formed stack with the same meaning |
| `StackSemantics.FoldIsAdded` | src/layer/internal/subject_iterator.rs:284-303 | every triple of a well-formed stack has a topmost addition, which is still queued, so no removal outlives its addition |
| `StackSemantics.FirstMentionDecides` | src/layer/internal/mod.rs:834-858 | the first layer from the top that mentions a triple decides whether the stack has it |
| `StackSemantics.RestrictFold` | src/layer/internal/mod.rs:864-894 | restricting every layer to a region of triples gives a well-formed stack meaning the restricted set |
| `StackSemantics.CountIsSize` | src/layer/layer.rs:182-184 | additions less removals over all layers is the number of triples, and never underflows |
| `StackSemantics.NetChange` | src/layer/internal/subject_iterator.rs:371-453 | per triple, the layers above an ancestor add up to exactly the difference between the top and that ancestor |
| `AdjacencyLists.AdjacencyListBuilder.Push` | src/layer/builder.rs:304-318 | a push appends one number to the group of the same left, or stub groups for every skipped left and then a new group; the view stays valid |
| `AdjacencyLists.StartIsUnique` | src/layer/internal/mod.rs:1107-1148 | two group starts with the same rank are the same position, so an offset identifies its group |
| `TripleIndexes.ListingIncreases` | src/layer/internal/subject_iterator.rs:127-176 | what a coherent pair of adjacency lists stores is strictly increasing and free of zeros |
| `TripleIndexes.AppendStep` | src/layer/builder.rs:284-323 | one accepted push keeps stubs matched, groups ascending and subjects ascending, and appends exactly one triple to the stored list |
| `TripleFileBuilders.TripleFileBuilder.AddTriple` | src/layer/builder.rs:284-326 | adding a triple that follows the last appends it to the contents, dense or sparse; a triple with a zero id changes nothing |
| `TripleFileBuilders.TripleFileBuilder.AddIdTriples` | src/layer/builder.rs:328-338 | a batch ends up in the files without its zero triples, in order |
| `TripleFileBuilders.TripleFileBuilder.Finalize` | src/layer/builder.rs:340-360 | the files written are coherent and store exactly the triples added |
| `TripleFileBuilders.BuildIndex` | src/layer/builder.rs:284-360 | encode/decode round trip: any strictly increasing nonzero list, dense or sparse, is read back as itself |
| `SubjectIterators.SubjectIterator.Next` | src/layer/internal/subject_iterator.rs:127-176 | each call yields the head of the stored triples still ahead, skipping stubs, and leaves the tail |
| `SubjectIterators.SubjectIterator.Peek` | src/layer/internal/subject_iterator.rs:120-124 | shows the head and leaves what is ahead unchanged |
| `SubjectIterators.SubjectIterator.SeekSubject` | src/layer/internal/subject_iterator.rs:41-63 | afterwards exactly the stored triples of that subject or a later one are ahead, dense or sparse, present or not |
| `SubjectIterators.SubjectIterator.SeekSubjectPredicate` | src/layer/internal/subject_iterator.rs:71-110 | afterwards exactly the stored triples from that predicate on, of the subject the seek lands on, and of later subjects are ahead, in order |
| `SubjectIterators.LandedBelow` | src/layer/internal/subject_iterator.rs:87-90 | the seek passes over no triple of the subject sought or a later one before the subject it lands on |
| `SubjectIterators.LandedIsListed` | src/layer/internal/subject_iterator.rs:87-90 | in a sparse layer that holds such a triple, the subject landed on is one with triples: the least at or beyond the one sought |
| `SubjectIterators.SubjectIterator.SeekSpPos` | src/layer/internal/subject_iterator.rs:112-118 | puts the three cursors in agreement at the start of the pair's objects |
| `PredicateIterators.SoughtPair` | src/layer/internal/mod.rs:356-366 | after such a seek, taking triples while they match gives exactly the triples of the pair |
| `PredicateIterators.TriplesOfPair` | src/layer/internal/mod.rs:356-378 | one layer's triples of a subject and predicate are the filter of its listing |
| `PredicateIterators.RunsAreFilter` | src/layer/internal/predicate_iterator.rs:39-95 | visiting the wavelet positions of a predicate one by one enumerates exactly its triples in subject order |
| `PredicateIterators.PredicateIterator.NextPos` | src/layer/internal/predicate_iterator.rs:39-52 | moves to the next position, if any, whose run is then ahead |
| `PredicateIterators.PredicateIterator.Next` | src/layer/internal/predicate_iterator.rs:61-95 | yields head after head of the predicate's triples, re-seeking at each pair boundary |
| `Lookups.SpoPosition` | src/layer/internal/mod.rs:1107-1148 | finds the start of the objects of a pair exactly when the pair is stored |
| `Lookups.LayerTripleExists` | src/layer/internal/mod.rs:1150-1192 | a layer's adjacency lists answer membership of the stored list, both ways |
| `Lookups.CollectObjects` | src/layer/internal/mod.rs:1033-1053 | adds exactly the objects of the pair to the exclude set |
| `Lookups.FirstObjectNotIn` | src/layer/internal/mod.rs:1055-1080 | returns the least object of the pair outside the exclude set, or none only when all of them are excluded |
| `ObjectIndexes.SortedRuns` | src/layer/builder.rs:380-440 | for every chunk limit, the sorted chunks and the rest hold exactly the stored pairs, as a multiset, each run sorted |
| `ObjectIndexes.SortedEntries` | src/layer/builder.rs:454-464 | merging the runs gives the stored pairs strictly ascending by object, then pair |
| `ObjectIndexes.EntriesPushed` | src/layer/builder.rs:466-500 | pushing for the same or a new last object, dense or sparse, appends one entry |
| `ObjectIndexes.BuildObjectIndex` | src/layer/builder.rs:367-502 | the object index built with any chunk limit agrees with the subject index it was built from |
| `ObjectIndexes.ListingAgrees` | src/layer/builder.rs:367-502 | a coherent object index enumerates the same triple set as its subject index, in (object, subject, predicate) order |
| `ObjectIterators.ObjectIterator.Next` | src/layer/internal/object_iterator.rs:90-141 | yields head after head of the object listing; pairs are resolved through the sp list |
| `ObjectIterators.ObjectIterator.SeekObject` | src/layer/internal/object_iterator.rs:46-67 | afterwards exactly the triples of that object or a greater one are ahead, also where a sparse layer lacks the object |
| `LayerIterators.LowestIndex` | src/layer/internal/subject_iterator.rs:279-283 | finds the topmost of the iterators with the least head, or that all are done |
| `LayerIterators.TakeHead` | src/layer/internal/subject_iterator.rs:287-303 | takes the triple from the first iterator whose head it is, and leaves the others alone |
| `MergedIterators.LowestPrecedes` | src/layer/internal/subject_iterator.rs:279-303 | no queued removal blocks: nothing queued precedes the lowest addition |
| `MergedIterators.LowestIsTopmost` | src/layer/internal/subject_iterator.rs:279-283 | the lowest addition found belongs to the topmost layer that still queues it |
| `MergedIterators.RemovalAtHead` | src/layer/internal/subject_iterator.rs:284-303 | a queued removal of the lowest addition is at the head of its iterator |
| `MergedIterators.MergedIterator.Next` | src/layer/internal/subject_iterator.rs:273-308 | yields the least triple outstanding, and it is then no longer outstanding; yields nothing only when nothing is outstanding |
| `MergedIterators.CollectWhile` | src/layer/internal/mod.rs:872-894 | taking from a merged iterator while a condition holds that comes first gives, in order and once each, exactly the outstanding triples satisfying it |
| `Queries.QueueIsRegion` | src/layer/internal/subject_iterator.rs:225-271 | freshly made and positioned per-layer iterators form a well-formed queue meaning the query's region of the layer's triples |
| `Queries.FromLayer` | src/layer/internal/subject_iterator.rs:225-271 | the merged iterator of a layer has exactly the query's region of its triples outstanding |
| `LayerQueries.AllTriples` | src/layer/internal/mod.rs:860-862 | strictly increasing, and exactly the fold of the stack |
| `LayerQueries.TriplesS` | src/layer/internal/mod.rs:864-870 | the triples of the subject, each once, in order |
| `LayerQueries.TriplesSP` | src/layer/internal/mod.rs:872-882 | the triples of the subject and predicate, each once, in order |
| `LayerQueries.TriplesP` | src/layer/internal/mod.rs:884-886 | the triples of the predicate, each once, in order; for the invalid id 0 right if and only if no layer holds a stub |
| `PredicateZero.StubIsGap` | src/layer/builder.rs:304-318 | a dense layer holds a stub exactly when it has triples of a subject and none of an earlier one |
| `PredicateZero.HasStubIff` | src/layer/internal/mod.rs:884-886 | what decides the answer for predicate 0: some dense layer of the stack uses a subject and not an earlier one |
| `PredicateZero.StubExample` | src/layer/internal/mod.rs:884-886 | a layer with the one triple (2, 1, 1), for which the answer for predicate 0 is wrong |
| `LayerQueries.TriplesO` | src/layer/internal/mod.rs:888-894 | the triples of the object, each once, in object order |
| `LayerQueries.TripleExists` | src/layer/internal/mod.rs:834-858 | true exactly for the triples of the fold |
| `LayerQueries.SingleTripleSP` | src/layer/internal/mod.rs:1016-1086 | some triple of the pair if and only if the fold has one, although layers are scanned downward with a growing exclude set only: of those the topmost layer adds, the one with the least object |
| `LayerQueries.StubsPairUp` | src/layer/internal/mod.rs:478-494 | up to any pair, stubs of the object list match stubs of the predicate list one to one |
| `LayerQueries.LayerCount` | src/layer/internal/mod.rs:478-494 | the right count less the zero predicates is the number of triples the layer stores |
| `LayerQueries.TripleCount` | src/layer/internal/mod.rs:790-814 | additions less removals over the whole stack is the number of triples |
| `NetIterators.Unmatched` | src/layer/internal/subject_iterator.rs:390-453 | an entry lower than everything on the other side is off balance by exactly one and occurs once |
| `NetIterators.EmitAddition` | src/layer/internal/subject_iterator.rs:390-453 | reporting an addition nothing removes leaves a balanced queue with every other net change as it was |
| `NetIterators.EmitRemoval` | src/layer/internal/subject_iterator.rs:390-453 | likewise for a removal nothing adds |
| `NetIterators.CancelPair` | src/layer/internal/subject_iterator.rs:390-453 | dropping an addition with a removal of the same triple changes no net change |
| `NetIterators.StackIterator.Next` | src/layer/internal/subject_iterator.rs:387-453 | each step reports the least triple with a net change, as an addition or a removal, and settles it |
| `NetIterators.CollectChanges` | src/layer/internal/subject_iterator.rs:387-453 | draining the iterator lists every nonzero net change once, in strictly increasing triple order |
| `NetIterators.ReportIsUnique` | src/layer/internal/subject_iterator.rs:371-385 | the report depends on the net changes only |
| `NetOfStacks.FromLayerStack` | src/layer/internal/subject_iterator.rs:329-359 | exists exactly when the ancestor is found; its parts hold the difference between top and ancestor |
| `NetOfStacks.AncestorIs` | src/layer/internal/subject_iterator.rs:337-350 | the ancestor is where a walk down the parents first meets the name, the layer itself not counted |
| `NetOfStacks.NetDifference` | src/layer/internal/subject_iterator.rs:329-359 | streams over exactly the layers in between hold the net difference of the two triple sets |
| `NetOfStacks.ChangesUpto` | src/layer/internal/subject_iterator.rs:329-453 | each triple only the top has once as an addition, each only the ancestor has once as a removal, in increasing order |
| `NetOfStacks.MergeAddsUp` | src/layer/internal/subject_iterator.rs:371-385 | concatenating the parts of iterators adds up their net changes |
| `NetOfStacks.PermutedReport` | src/layer/internal/subject_iterator.rs:371-385 | permuting the parts does not change what is reported |
| `Dictionaries.IdMapInverts` | src/layer/id_map.rs:31-56 | a permuting id map is a bijection on 1..n whose two directions invert each other |
| `Dictionaries.IdMapBeyond` | src/layer/id_map.rs:31-56 | ids beyond the dictionary are left alone in both directions |
| `Dictionaries.StrLeIff` | src/layer/simple_builder.rs:344-346 | strings are ordered by their bytes: one is a prefix of the other, or has the smaller byte where they part |
| `Dictionaries.EntryLeIff` | src/layer/id_map.rs:150-168 | nodes come before values, values by datatype and then by their bytes |
| `Dictionaries.PermutedDistinct` | src/layer/id_map.rs:31-56 | reading a dictionary through its map neither repeats nor loses entries |
| `IdTranslation.EntryId` | src/layer/internal/mod.rs:601-636 | walking down the stack finds the global id at which the entry is listed, or none exactly when it is nowhere |
| `IdTranslation.PredicateId` | src/layer/internal/mod.rs:583-599 | likewise for predicates |
| `IdTranslation.IdEntry` | src/layer/internal/mod.rs:702-742 | the entry listed at a global id, and none outside the ids in use |
| `IdTranslation.IdSubject` | src/layer/internal/mod.rs:638-669 | the node listed at a global id; none for values and unused ids |
| `IdTranslation.IdPredicate` | src/layer/internal/mod.rs:671-700 | the predicate listed at a global id |
| `IdTranslation.RoundTrip` | src/layer/internal/mod.rs:601-742 | translating an id to its entry and back gives the id, for exactly the ids 1..count, over all layers and through id maps |
| `StringTriples.SameMeaning` | src/layer/layer.rs:163-173 | a layer keeps what it says in strings when it keeps its id tables and its triples |
| `StringTriples.DecodedChange` | src/layer/layer.rs:163-173 | through tables without repetition decoding commutes with removing and adding triples |
| `ValueRanges.CutIsLowerBound` | src/layer/internal/mod.rs:896-952 | the binary search cuts the sorted values exactly before the first that is not below the bound |
| `ValueRanges.SegmentIds` | src/layer/internal/mod.rs:896-1010 | one layer's values in range, as global ids, in the order of the values or its reverse |
| `ValueRanges.LevelWithin` | src/layer/internal/mod.rs:896-952 | the level of an id is the layer whose own entries it counts among |
| `ValueRanges.ObjectIds` | src/layer/internal/mod.rs:896-1010 | over all layers, through id maps, exactly the ids of values in [low, high), those of a lower layer first, those of one layer in value order or its reverse |
| `ValueRanges.TriplesValueRange` | src/layer/internal/mod.rs:896-1010 | each triple whose object is a value in [low, high) exactly once; of two triples the one whose object a lower layer gave out comes first, within a layer the lower value or, in reverse, the higher one, and for one object by subject and predicate; no other triple |
| `Commits.CancelNoops` | src/layer/simple_builder.rs:248-290 | in place: an addition also removed and a removal also added become zero, as does a removal beyond the parent's ids; all else stays |
| `Commits.Survivors` | src/layer/simple_builder.rs:248-290 | what survives is A minus R, and R minus A within the parent |
| `Commits.MarkUsed` | src/layer/simple_builder.rs:292-310 | exactly the provisional entries and predicates the given triples mention are marked |
| `Commits.CollectEntries` | src/layer/simple_builder.rs:312-330 | lists exactly the marked new nodes and values with their provisional ids |
| `Commits.CollectPredicates` | src/layer/simple_builder.rs:331-342 | lists exactly the marked new predicates |
| `Commits.RenumberLive` | src/layer/simple_builder.rs:365-382 | remapped and re-sorted triples increase, and say what they said before |
| `Remapping.FillMap` | src/layer/simple_builder.rs:348-363 | every listed id is mapped to its place, other slots are untouched |
| `Remapping.RemapKeeps` | src/layer/simple_builder.rs:365-379 | a kept id, and an id of the parent, still names the entry it named |
| `Remapping.RenumberedMeaning` | src/layer/simple_builder.rs:365-382 | renumbered triples stay distinct and decode to the same strings |
| `Remapping.RenumberingPreserves` | src/layer/simple_builder.rs:348-382 | the two conversion maps together preserve every triple over kept ids |
| `Compaction.Compact` | src/layer/simple_builder.rs:344-363 | sorting and numbering the kept strings gives a valid dictionary and maps under which all kept ids keep their meaning |
| `LayerFileBuilders.BuildIndexes` | src/layer/builder.rs:533-553 | subject index and object index are built coherent over the same list, both dense or both sparse as asked |
| `LayerFileBuilders.BuildBaseLayer` | src/layer/internal/base.rs:339-408 | a well-formed base layer of exactly the nonzero triples given, written without lists of subjects or objects |
| `LayerFileBuilders.BuildChildLayer` | src/layer/internal/child.rs:437-560 | additions outside and removals inside the parent give a well-formed child meaning (parent - removals) + additions, with lists of the subjects and objects in use |
| `LayerBuilders.SimpleLayerBuilder.constructor` | src/layer/simple_builder.rs:70-107 | a fresh builder requests nothing |
| `LayerBuilders.SimpleLayerBuilder.EntryIdFor` | src/layer/simple_builder.rs:109-189 | an id, the parent's, remembered or provisional, that names the entry in tables extending the earlier ones |
| `LayerBuilders.SimpleLayerBuilder.PredicateIdFor` | src/layer/simple_builder.rs:109-189 | likewise for predicates |
| `LayerBuilders.SimpleLayerBuilder.CalculateTriple` | src/layer/simple_builder.rs:109-189 | the id triple decodes to the string triple asked for; ids given out earlier keep their meaning |
| `LayerBuilders.SimpleLayerBuilder.AddValueTriple` | src/layer/simple_builder.rs:200-203 | exactly that string triple joins the requested additions |
| `LayerBuilders.SimpleLayerBuilder.RemoveValueTriple` | src/layer/simple_builder.rs:209-212 | exactly that string triple joins the requested removals |
| `LayerBuilders.SimpleLayerBuilder.AddIdTriple` | src/layer/simple_builder.rs:205-207 | what the id triple says, by the parent's ids and the provisional ones, joins the requested additions |
| `LayerBuilders.SimpleLayerBuilder.RemoveIdTriple` | src/layer/simple_builder.rs:214-216 | likewise for a removal by ids |
| `LayerBuilders.Survive` | src/layer/simple_builder.rs:239-290 | sorting, deduplicating and cancelling leaves exactly the surviving requests, without repetition |
| `LayerBuilders.CollectUsed` | src/layer/simple_builder.rs:292-342 | gathers exactly the new strings the requests left still use |
| `LayerBuilders.FilterByParent` | src/layer/internal/child.rs:498-534 | keeps, in order, exactly the triples the parent lacks, or has |
| `LayerBuilders.CommittedStrings` | src/layer/simple_builder.rs:365-420 | whatever ids were provisional, the layer says (P - (R - A)) + (A - R) |
| `LayerBuilders.CommittedEntries` | src/layer/simple_builder.rs:292-342 | the new dictionary holds exactly the entries the surviving additions use and the parent lacks |
| `LayerBuilders.SimpleLayerBuilder.Commit` | src/layer/simple_builder.rs:218-420 | commit theorem: a well-formed layer on the given parent that says (P - (R - A)) + (A - R), with a dictionary of exactly the new strings its additions use; without a parent, files that can be merged |
| `Diffs.SameDictionary` | src/layer/simple_builder.rs:344-346 | sorted dictionaries holding the same strings are equal |
| `Diffs.CommitIsDetermined` | src/layer/simple_builder.rs:218-420 | any two commits of the same request sets on the same parent agree in dictionary, ids and triples, whatever the order of calls |
| `Diffs.IdTripleToString` | src/layer/layer.rs:163-173 | the string triple of a known id triple, and none otherwise |
| `Diffs.ValueTripleExists` | src/layer/layer.rs:83-87 | true exactly for what the layer says |
| `Diffs.ApplyDiff` | src/store/mod.rs:195-226 | requests exactly the removals and additions leading from the parent to the other layer, of those with a node as subject, which are all that string triples can spell out |
| `Diffs.CommitDiff` | src/store/mod.rs:195-226 | applying a diff on a fresh builder and committing gives exactly what the other layer says if and only if both say the same with values as subjects, and always the same with nodes as subjects |
| `Squashes.Squash` | src/storage/layer.rs:1853-1983 | a base layer with the same string triples and a dictionary of exactly the strings they use, without id maps, that can be merged |
| `Squashes.RemapStays` | src/storage/layer.rs:2162-2176 | ids at or below the base counts are not moved |
| `Squashes.SquashUpto` | src/storage/layer.rs:1985-2210 | a child of the ancestor that says what the top says, leaves the ancestor's ids alone and adds exactly the new strings in use |
| `Numberings.NodeRunOf` | src/layer/id_map.rs:96-110 | the nodes of one dictionary with their outer ids, moved up by the offset, number exactly the nodes by the ids they have |
| `Numberings.ValueRunOf` | src/layer/id_map.rs:112-127 | likewise for values, which follow the nodes |
| `Numberings.PredicateRunOf` | src/layer/id_map.rs:129-142 | likewise for predicates under their own map |
| `Numberings.NodesThenValues` | src/layer/id_map.rs:160-166 | sorted nodes followed by sorted values list every id once, in dictionary order |
| `Numberings.ImmediateDicts` | src/layer/internal/mod.rs:496-509 | the dictionaries of a stack, lowest first, spell out its id table |
| `Rollups.MergeGathered` | src/layer/id_map.rs:144-166 | merging sorted per-layer runs keeps every number and gives the sorted dictionary of all of them |
| `Rollups.TreeInverts` | src/layer/id_map.rs:160-182 | the list of merged ids is a permutation of 0..n-1, and reading through it gives every entry back at its old id |
| `Rollups.WrittenIff` | src/layer/id_map.rs:160-182 | for any numbers given to the keys of a table, sorting by key and writing the numbers as a map gives the table back if and only if every number was right |
| `Rollups.RollupDictionary` | src/layer/id_map.rs:78-182 | the rolled-up dictionary gives every node and value the global id it had, and the map stored lists those ids in the order of the sorted entries; it is well formed and gives every predicate its id if and only if each predicate was numbered under a map that says what its own map says, and stores the numbers given in any case |
| `Rollups.DeltaRollup` | src/storage/delta.rs:270-299 | a base layer with the ids, triples and strings of the whole stack, that can be merged |
| `RollupBounds.StackNamesUpto` | src/storage/layer.rs:2525-2549 | names that lead from just above an ancestor to the layer, each the parent of the next, or an error exactly when there are no such names |
| `RollupBounds.LinkedUnique` | src/storage/layer.rs:2525-2549 | there is only one such list |
| `RollupBounds.SafeUptoBound` | src/storage/delta.rs:8-45 | terminates with the end of the walk down the loaded parents, each below the one before on disk: `upto` if that is reached, else the first layer whose loaded parent is missing or not below it on disk; an error exactly when `upto` is not below |
| `RollupBounds.LowestSafeUnique` | src/storage/delta.rs:21-44 | there is only one such end, so no usable layer further down is missed |
| `RollupBounds.ReachesUptoIff` | src/storage/delta.rs:30-33 | the bound is `upto` if and only if the loaded ancestors down to it are all on the chain on disk, in its order |
| `RollupBounds.BoundIsSafe` | src/storage/delta.rs:8-45 | the bound is `upto` or lies above it on disk; it is a loaded ancestor unless the branch condition `Blocked` holds, and then it is the layer itself |
| `RollupBounds.RolledUpToBaseIsBlocked` | src/storage/delta.rs:8-45 | a layer loaded as a rolled-up base layer meets that condition for every ancestor |
| `ChangeStreams.DiskChanges` | src/storage/layer.rs:335-352 | the changes read from disk between two names hold exactly the difference of their triple sets |
| `ChangeStreams.Merge` | src/layer/internal/subject_iterator.rs:371-385 | merging changes above the bound with changes below it gives the changes across |
| `ChangeStreams.ChangesAcross` | src/storage/delta.rs:398-410 | memory changes above the bound merged with disk changes below it are the difference between the layer and `upto` |
| `RollupsUpto.MapsTell` | src/storage/delta.rs:170-200 | reading predicates under the maps of nodes and values for loaded layers, and their own maps on disk, is right if and only if those two maps agree, on the predicates of the loaded layers |
| `RollupsUpto.DeltaRollupUpto` | src/storage/delta.rs:367-437 | always a well-formed child of `upto` with the layer's triples; with the layer's ids, and so its strings, if and only if the two maps of each layer loaded above the bound agree on its predicates; the predicates written are in any case those above `upto`, under the numbers these maps give |
| `RollupExamples.MisreadExample` | src/storage/delta.rs:192-200 | a valid store and a layer loaded from it whose rollup to 1 reads predicates under the wrong map: layer 4 rolled up to 2, then to 1 |
| `RollupExamples.MisreadRollup` | src/storage/layer.rs:1774-1807 | performing that rollup: the child is written and registered, and the store no longer substitutes like for like |
| `RollupExamples.BlockedExample` | src/storage/delta.rs:8-45 | a valid store in which layer 4 is rolled up to 1: asked to roll it up to 2, the bound is 4 itself, which is no loaded ancestor |
| `Stores.RebasedChild` | src/storage/layer.rs:1571-1604 | a layer's own files put on anything with its parent's contents give the layer's contents |
| `Stores.RollupRepresents` | src/layer/internal/rollup.rs:11-35 | a rollup substituted for a layer keeps its name, its parent's name and its contents |
| `Stores.RepresentsAgree` | src/storage/layer.rs:1455-1609 | two loads of one name agree in name, parent name, ids, triples and strings |
| `Stores.FaithfulGrown` | src/storage/layer.rs:1455-1609 | a layer loaded earlier stays right as layers and rollups are added |
| `LayerStores.LayerCache.GetLayer` | src/storage/cache.rs:118-140 | a hit is what was cached under the name; a dead reference is dropped |
| `LayerStores.LayerCache.CacheLayer` | src/storage/cache.rs:142-162 | caches the layer under its own name |
| `LayerStores.LayerCache.Invalidate` | src/storage/cache.rs:164-172 | forgets exactly that name |
| `LayerStores.FindAncestor` | src/storage/layer.rs:1464-1537 | the walk down rollups and parents terminates, at a cached layer that fits or at a base layer |
| `LayerStores.LoadBase` | src/storage/layer.rs:1539-1569 | a base layer, or a rollup of it under the name and parent asked for |
| `LayerStores.LoadChild` | src/storage/layer.rs:1571-1604 | a child over the loaded ancestor, or a rollup of it under the name and parent asked for |
| `LayerStores.GetLayerWithCache` | src/storage/layer.rs:1455-1609 | for every name on disk, and whatever is cached, a layer with the contents it was built with; also its name and parent name when no rollup has a rollup |
| `LayerStores.LoadedNameIff` | src/storage/layer.rs:1464-1606 | without a cache the loader returns the layer asked for if and only if it has no rollup or a rollup without one |
| `RollupExamples.MisnamedExample` | src/storage/layer.rs:1464-1606 | a concrete store where asking for layer 3 returns layer 4 |
| `StoreRuns.LayerStore.GetLayer` | src/storage/cache.rs:227-239 | loading finds exactly the layers on disk and returns them faithfully |
| `StoreRuns.LayerStore.BeginLoad` | src/storage/layer.rs:1455-1609 | the reading part of a load: finds exactly the layers on disk, faithfully; what it has built waits to be cached |
| `StoreRuns.LayerStore.CacheLoaded` | src/storage/layer.rs:1563-1604 | the caching part, at any later time: whatever was committed, squashed, rolled up or registered in between, the cache stays right |
| `StoreRuns.LayerStore.AddLayer` | src/storage/layer.rs:1611-1613 | a fresh layer joins the store; all earlier layers and what is cached stay right |
| `StoreRuns.LayerStore.Commit` | src/storage/layer.rs:1727-1747 | the new layer says the committed strings over what its parent says on disk; fails exactly when the parent is missing |
| `StoreRuns.StackNames` | src/storage/layer.rs:2510-2523 | the names from the base to the layer, each the parent of the next |
| `StoreRuns.RegisteredValidIff` | src/storage/cache.rs:416-435 | registering a rollup keeps a valid store valid if and only if the rollup may stand for the layer |
| `StoreRuns.RegisteredChainsIff` | src/storage/cache.rs:416-435 | it leaves every rollup without a rollup if and only if the rollup has none and the layer is no other layer's rollup |
| `StoreRuns.LayerStore.RegisterRollup` | src/storage/cache.rs:416-435 | records the rollup unless it is the layer itself, and forgets exactly the cached layers of the chain; for any two layers, and right under exactly the conditions above |
| `StoreRuns.LayerStore.PerformRollup` | src/storage/layer.rs:1749-1772 | the layer itself for a base layer, else a base layer that may stand for it, an existing one if there is one |
| `StoreRuns.LayerStore.Rollup` | src/storage/layer.rs:155-161 | afterwards the layer has a base layer as its rollup, and no other rollup has changed; some rollup then has a rollup if and only if the layer was one |
| `StoreRuns.LayerStore.PerformRollupUpto` | src/storage/layer.rs:1774-1807 | exactly when it leads anywhere: the layer itself, an existing rollup, or a new child of `upto`, which may stand for the layer if and only if its predicates were read right |
| `StoreRuns.LayerStore.RollupUpto` | src/storage/layer.rs:163-183 | afterwards the layer has a child of `upto` as its rollup if one was made, else nothing has changed; the store is valid if and only if no predicate was misread |
| `StoreRuns.LayerStore.SquashLayer` | src/storage/layer.rs:1853-1983 | a new base layer that says what the layer says; all else unchanged |
| `StoreRuns.LayerStore.SquashLayerUpto` | src/storage/layer.rs:1985-2210 | done exactly when `upto` is below: a new child of it that says what the layer says and knows its ids alike |
| `StoreRuns.Take` | src/storage/cache.rs:416-452 | one step of any kind keeps the store valid and every earlier layer; a load is answered exactly when the layer exists |
| `StoreRuns.Run` | src/storage/layer.rs:1455-1609 | over every run of commits, rollups, squashes, loads, late cache inserts and invalidations: what can be loaded stays loadable, and any two loads of a name agree in name, parent name, triples and strings |
| `LruCaches.LruArchiveBackend.EnsureAdditionalCacheSpace` | src/storage/archive.rs:445-482 | terminates without its expects failing; evicts the least recently used resolved entries, no more than needed, and none being resolved |
| `LruCaches.LruArchiveBackend.EnsureEnoughCacheSpace` | src/storage/archive.rs:484-503 | room is made exactly when the bytes can fit at all |
| `LruCaches.LruArchiveBackend.DropFromCache` | src/storage/archive.rs:505-517 | removes the entry and leaves the others in their order; the byte count stays right if and only if the entry was the least recent or held no bytes |
| `LruCaches.LruArchiveBackend.StartGet` | src/storage/archive.rs:521-541 | a hit or a wait for the one request resolving the layer, whose entry becomes the most recently used one with all others in their order, or a new barrier with its entry |
| `LruCaches.LruArchiveBackend.FetchFromOrigin` | src/storage/archive.rs:541-545 | the barrier gets what the origin said, and only its holder sets it |
| `LruCaches.LruArchiveBackend.FinishGet` | src/storage/archive.rs:547-573 | the entry becomes its bytes, most recently used, if they fit, and is dropped otherwise; other resolved entries keep their order; those waiting still wait |
| `LruCaches.LruArchiveBackend.ReleaseBarrier` | src/storage/archive.rs:545-573 | the write guard goes after the cache lock: only then is the result there for those waiting |
| `LruCaches.LruArchiveBackend.WakeWaiter` | src/storage/archive.rs:528-535 | a waiter gets what the resolver looked up |
| `LruCaches.LruArchiveBackend.StoreToOrigin` | src/storage/archive.rs:593-594 | a layer is written once, or again with the same bytes |
| `LruCaches.LruArchiveBackend.FinishStore` | src/storage/archive.rs:596-605 | stored bytes are cached unless the layer is cached or being looked up, or they cannot fit |
| `LruCaches.LruArchiveBackend.EvictToTarget` | src/storage/archive.rs:421-436 | brings the byte count to the target, evicting as above |
| `RecencyLists.FreedIs` | src/storage/archive.rs:445-482 | freeing never drops an entry being resolved, keeps keys distinct, and frees enough |
| `RecencyLists.FreedEvicted` | src/storage/archive.rs:445-482 | the resolved entries from the least recent on, just enough of them, are gone; what is being resolved and stood before the last of them now stands after everything that was not reached, all else as before |
| `RecencyLists.AfterGetIs` | src/storage/archive.rs:547-573 | bytes that fit become the most recently used entry, what does not fit leaves no entry; the resolved entries otherwise stand in the order they had |
| `RecencyLists.LeastRecentGo` | src/storage/archive.rs:445-482 | whatever is evicted was used less recently than every resolved entry that stays |
| `RecencyLists.MostRecentStays` | src/storage/archive.rs:445-482 | the most recently used entry stays as long as any resolved one does |
| `RecencyLists.PassedOverExample` | src/storage/archive.rs:452-460 | an entry being resolved changes places with one that was not reached, so the order of such entries is not kept |
| `LruCaches.HitThenEvict` | src/storage/archive.rs:421-436 | a layer hit and then evicting to any target: the layer stays cached as long as any resolved entry does |
| `LruCaches.Guarantees` | src/storage/archive.rs:521-576 | between any two steps: one resolver per layer, every awaited barrier has a resolver, a result about to be released or a result, same barrier same answer, answers are the origin's |
| `LruCaches.Take` | src/storage/archive.rs:521-605 | any step keeps the invariant and every answer given |
| `LruCaches.Interleave` | src/storage/archive.rs:521-605 | under every interleaving the byte count equals the resolved bytes, never exceeds the limit, and answers agree with the write-once origin |
| `Archives.BitsOfNumber` | src/storage/archive.rs:925-933 | bit k of the number, from the most significant one, is bit k of the list |
| `Archives.WordBit` | src/storage/archive.rs:925-933 | bit t of the word is bit t % 8, from the most significant one, of byte t / 8 |
| `Archives.BitsRoundTrip` | src/storage/archive.rs:914-941 | bits written as a number are read back |
| `Archives.WordRoundTrip` | src/storage/archive.rs:958-971 | the presence word written as bytes is read back |
| `Archives.FromPresent` | src/storage/archive.rs:925-933 | exactly the bits of the files present are set |
| `Archives.RankIsPlace` | src/storage/archive.rs:943-949 | the rank of a file's bit is its place among the files present |
| `Archives.DataBetween` | src/storage/archive.rs:994-1007 | between consecutive cumulative offsets lies exactly that file's data |
| `Archives.Finalize` | src/storage/archive.rs:1544-1580 | for every set of files: bit t of the big-endian presence word is set exactly for the types there, the offsets are the ends of the files in the order of their types, and the data between two of them is that file; parsing and slicing by type gives each file's bytes, and nothing for absent types |
| `TripleStreams.NextPair` | src/layer/internal/base.rs:431-478 | the pair stream has exactly the pair the next object belongs to next |
| `TripleStreams.BaseTripleStream.PollNext` | src/layer/internal/base.rs:428-478 | each poll yields the next stored triple; the pair stream never ends early |
| `TripleStreams.CollectStream` | src/layer/internal/base.rs:428-478 | draining the stream gives the stored list |
| `TripleStreams.ChildTripleStream.PollNext` | src/layer/internal/child.rs:595-685 | each poll yields the next stored triple with its subject from the subject list; neither stream ends early |
| `BaseMerges.MergeDicts` | src/layer/internal/base_merge.rs:31-77 | the merged dictionary is the sorted union, and each map takes an entry to its place in it |
| `BaseMerges.MapTripleMonotone` | src/layer/internal/base_merge.rs:79-96 | mapping triples keeps and reflects their order |
| `BaseMerges.MappedSaysTheSame` | src/layer/internal/base_merge.rs:79-96 | a mapped triple decodes through the merged dictionaries to what it said before |
| `BaseMerges.DropRepeats` | src/layer/internal/base_merge.rs:255-263 | the loop remembering the last triple drops exactly the repeats of a sorted list |
| `BaseMerges.MergeFiles` | src/layer/internal/base_merge.rs:168-294 | a base layer that says exactly the union of what the inputs say, with exactly their strings and no id maps, unless a subject id is beyond the nodes; it can be merged again |
| `MappedMerges.MergeBaseLayers` | src/layer/internal/base_merge.rs:168-294 | for any base layers, exactly the union of what they say when their id maps are left out; it stops if and only if a subject id is beyond the nodes |
| `MappedMerges.TablesSameIff` | src/layer/internal/base_merge.rs:182-215 | the merge goes by the ids an input has if and only if both its maps keep every id |
| `MappedMerges.SaysTheSameIff` | src/layer/internal/base_merge.rs:79-96 | an input read without its maps says what it says if and only if taking the ids of its triples through the maps gives its triples again |
| `MappedMerges.MergeIsUnion` | src/layer/internal/base_merge.rs:168-294 | where that holds of every input the merge is the union |
| `MappedMerges.MergedAloneIff` | src/layer/internal/base_merge.rs:168-294 | for one input, exactly then |
| `MappedMerges.MisreadMerge` | src/layer/internal/base_merge.rs:79-96 | two nodes whose ids are not in sorted order: the merge turns the triple between them around |
| `MappedMerges.StoppedMerge` | src/layer/internal/base_merge.rs:79-96 | a node whose id is beyond the number of nodes: there is no merge |

## Left out

- RollupsUpto.DeltaRollupUpto: the bound is not the layer itself (`Blocked`), where the source panics; a misread predicate id beyond the dictionary makes the written dictionary not well formed, and what the bit width of the stored map makes of it is not modelled.
- StoreRuns.Run: a rollup is not given to a layer that is itself a rollup, and a rollup that would misread predicates is not made; after those the store is no longer one the run can speak of. The disk reads of one load are one step; what it has built may be cached any number of steps later.
- LayerBuilders.SimpleLayerBuilder.AddIdTriple: the ids must be the parent's or provisional ones given out before; the commit panics on ids nobody has given out, and drops triples with a zero id.
- LayerBuilders.SimpleLayerBuilder.RemoveIdTriple: likewise.
- LruCaches.LruArchiveBackend.StoreToOrigin: a layer already there is not written with other bytes; names are fresh for every layer, and a cached copy would go stale.
- MappedMerges.MergeIsUnion: with several inputs only sufficient, since one input can make up for what another misreads; for one input it is exact (`MappedMerges.MergedAloneIff`).
- ObjectIterators.ObjectIterator.Next: the flag `stop_at_boundary` is not modelled; `triples_o` does not set it.
- TripleFileBuilders.TripleFileBuilder.AddTriple: a triple that does not follow the last one makes the source panic and is excluded.
- ValueRanges.TriplesValueRange: both bounds are values; a range over two datatypes is answered as empty, as in the source.
- The 64-bit width of ids, counts and sizes: numbers are unbounded.
- The bit layout of log arrays, front-coded dictionaries and wavelet trees, which belongs to tdb_succinct; only their behaviour is modelled, including merging dictionary files and the typed order of values.
- The encoding of typed literals: values carry an abstract order-preserving encoding per datatype.
- Files, directories, locks, tokio, tar and gzip packing, and the synchronous wrappers: plumbing around the modelled code.
- Futures that are dropped half-way, poisoned locks, metrics and logging.
- `imprecise_delta_rollup_upto`: it computes changes up to the bound while the child's parent is `upto`, so it means what is intended only where the two coincide.
- `layer_changes`: its loop reads the name it was given and not the current one; `layer_changes_upto` is modelled.
- `internal_triple_additions_o`, `internal_triple_removals_o` and `stop_at_boundary`: on a sparse layer without the object they go on to the next one; `triples_o` is modelled.
- `CachedLayerStore::get_predicate_count`: it falls through to the count of values, so no agreement is claimed.
- The multi-sort for object pairs above the sort limit: the gathered rest is always below it.
- Reading an archive header from a stream (`parse_from_reader`): same format as the parser that is modelled.
- The size threshold at which the layer cache cleans up dead references: a dead reference may vanish at any lookup in the model.
