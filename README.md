# GraphBolt data loader: graph rewriting and overlap stages

This project models the core of the GraphBolt `DataLoader` (`python/dgl/graphbolt/dataloader.py`)
in Dafny and proves properties of the model.

The `DataLoader` takes a user pipeline of lazily evaluated stages and roots it in an `EndMarker`.
It then rewrites the pipeline graph in four passes:

1. every `ItemSampler` is replaced by its sharding form;
2. the parents of every `FeatureFetcher` are wrapped by a `MultiprocessingWrapper`;
3. only when overlap is requested, there are no worker processes and CUDA is available:
   - every feature fetcher gets the shared UVA stream;
   - the end marker's parents are wrapped by `Bufferer(2)` and then by `Awaiter`;
4. the parents of every `CopyTo` are wrapped by `Prefetcher(2)`.

The model has these parts:

- **`Stages`** (`stages.dfy`): the pass-through stages `EndMarker` and `Awaiter`. Each is a method whose loop builds what one full pass yields from what its upstream yields.
- **`Buffering`** (`bufferer.dfy`): `Bufferer` is a class whose queue is a field that every pull updates in place.
  - Its construction check is a `Result`.
  - Its pulling and draining loops are methods proved against the functions `Step` and `Run`.
  - The FIFO round trip, the queue bound and the lag are lemmas about those functions.
- **`PipelineGraph`** (`graph.dfy`): the pipeline graph is an arena (`seq<Stage>`). A stage's id is its index, and each stage lists its parent ids.
  - `replace_dp(graph, p, wrapper(p))` appends a wrapper reading from `p` and redirects every other reader of `p` to it.
  - `find_dps` is `Find`.
  - `datapipe_graph_to_adjlist` is `Adjacency`.
  - One `_find_and_wrap_parent` pass is `WrapParents`.
  - Lemmas state what a pass does to edges, roles, lookups and acyclicity.
- **`Rewrite`** (`rewrite.dfy`): the live pipeline is a class whose arena the rewrites mutate. `_find_and_wrap_parent` is a method with the source's two nested loops.
- **`Loader`** (`dataloader.dfy`):
  - the configuration and the persistence rule of `MultiprocessingWrapper`;
  - the `_get_uva_stream` memo, as a class holding the optional stream;
  - the four passes as functions (`Build`);
  - the `DataLoader` class, whose constructor runs the passes on the live pipeline and is proved to leave exactly `Build`.
  - As in the source, the adjacency is computed once, before pass 1, and every later pass reuses it. Passes 2 to 4 look their targets up in the snapshot taken after pass 1.
- **`LoaderFacts`** (`loader_facts.dfy`): what the whole constructor guarantees:
  - the result is a DAG;
  - the end marker stays the root;
  - the user's stages keep their roles;
  - the feature fetchers get the stream exactly when overlap is on;
  - each pass inserts exactly one wrapper per recorded parent, and nothing else;
  - every reference to a parent that a pass targets now reads that pass's wrapper, the first pass to target the parent deciding (`BuildRedirects`).
- **`OverlapOrder`** (`overlap_order.dfy`): the order in which pass 3 leaves its two wrappers, as written and as evidently intended (see "## Findings").

Two facts about the code shape the model:

- The adjacency list is computed once, at `python/dgl/graphbolt/dataloader.py:183`, before pass 1, and every later pass reuses it. The consequence is the finding below.
- The awaiter calls `wait()` on every item it yields (`python/dgl/graphbolt/dataloader.py:93`); there is no case for an item without a completion handle.

## Model

| member | source | states |
|---|---|---|
| Stages.Wait | python/dgl/graphbolt/dataloader.py:93 | waiting on an item keeps its value and leaves it ready |
| Stages.Awaited | python/dgl/graphbolt/dataloader.py:91-94 | an awaiter's output has the input's length; each position holds the input's value and is ready |
| Stages.AwaitedIdempotent | python/dgl/graphbolt/dataloader.py:91-94 | awaiting an already awaited stream changes nothing |
| Stages.EndMarkerIterate | python/dgl/graphbolt/dataloader.py:47-49 | the end marker yields exactly its upstream, in order |
| Stages.AwaiterIterate | python/dgl/graphbolt/dataloader.py:91-94 | the awaiter's loop yields exactly `Awaited` of its upstream: one item per upstream item, in order, each one `Wait`ed, so every yielded item is ready |
| Buffering.CheckBufferSize | python/dgl/graphbolt/dataloader.py:67-70 | construction succeeds exactly when the size is positive, and then keeps that size |
| Buffering.Step | python/dgl/graphbolt/dataloader.py:75-80 | one pull yields an item exactly when the queue is full, and that item is the oldest; yielded + queue after == queue before + the new item; the queue stays within capacity |
| Buffering.Run | python/dgl/graphbolt/dataloader.py:74-80 | over a whole upstream, what is yielded followed by what stays queued is the old queue followed by the upstream; the queue stays within capacity |
| Buffering.RunSnoc | python/dgl/graphbolt/dataloader.py:74-80 | one more upstream item is one more pull after the earlier ones |
| Buffering.RunQueueLength | python/dgl/graphbolt/dataloader.py:71-80 | after pulling, the queue holds min(capacity, items so far) items |
| Buffering.BuffererLag | python/dgl/graphbolt/dataloader.py:73-82 | from an empty queue, nothing is yielded until more than `size` items are pulled; after that, exactly the items older than the last `size` are yielded, and those last `size` are queued |
| Buffering.Bufferer.constructor | python/dgl/graphbolt/dataloader.py:65-71 | a new bufferer has the given positive capacity and an empty queue |
| Buffering.Bufferer.Full | python/dgl/graphbolt/dataloader.py:75 | a full queue of a valid bufferer holds at least one item; a queue that is not full has room for one more |
| Buffering.Bufferer.Create | python/dgl/graphbolt/dataloader.py:65-71 | fails with `ValueError` exactly when the size is not positive; otherwise a fresh valid bufferer with an empty queue |
| Buffering.Bufferer.Pull | python/dgl/graphbolt/dataloader.py:75-80 | one loop iteration updates the queue and yields exactly as `Step` does, keeping the capacity invariant |
| Buffering.Bufferer.PullAll | python/dgl/graphbolt/dataloader.py:74-80 | the pulling loop yields and leaves queued exactly what `Run` says |
| Buffering.Bufferer.Drain | python/dgl/graphbolt/dataloader.py:81-82 | the draining loop yields the queued items oldest first and empties the queue |
| Buffering.Bufferer.Iterate | python/dgl/graphbolt/dataloader.py:73-82 | a full pass yields the leftover queue followed by the whole upstream, in order (nothing lost, duplicated or reordered), and leaves the queue empty |
| PipelineGraph.SubstituteMembers | python/dgl/graphbolt/dataloader.py:34-38 | after redirecting, the replaced stage is no longer read (unless it is its own replacement); a stage is read exactly when it was read before and is not the replaced one, or it is the wrapper and the replaced stage was read |
| PipelineGraph.Wrapped | python/dgl/graphbolt/dataloader.py:34-38 | a wrap adds one stage, the wrapper, whose only parent is the wrapped stage |
| PipelineGraph.WrapEach | python/dgl/graphbolt/dataloader.py:32-38 | wrapping a list of parents adds one stage per listed parent |
| PipelineGraph.Find | python/dgl/graphbolt/dataloader.py:26-29 | a lookup returns only stages of the requested kind |
| PipelineGraph.FindComplete | python/dgl/graphbolt/dataloader.py:26-29 | a lookup misses no stage of the requested kind |
| PipelineGraph.ParentsOfMembers | python/dgl/graphbolt/dataloader.py:32 | an id is a recorded parent exactly when the adjacency lists it for one of the looked-up stages |
| PipelineGraph.ParentsOfWithin | python/dgl/graphbolt/dataloader.py:32-33 | recorded parents name stages of the live graph, so the lookup at line 33 never fails |
| PipelineGraph.WrapParents | python/dgl/graphbolt/dataloader.py:22-38 | one pass adds exactly one wrapper per recorded parent |
| PipelineGraph.WrapParentsUnchanged | python/dgl/graphbolt/dataloader.py:22-38 | a pass changes the graph exactly when some parent is recorded for its targets; with no target it is a no-op |
| PipelineGraph.WrappedEdges | python/dgl/graphbolt/dataloader.py:34-38 | after a wrap, the wrapped stage's only child is the wrapper; the wrapper has taken over all its former children; every other stage keeps its children, role and stream; the graph stays well formed |
| PipelineGraph.WrappedAcyclic | python/dgl/graphbolt/dataloader.py:34-38 | a wrap keeps a DAG a DAG |
| PipelineGraph.WrappedAt | python/dgl/graphbolt/dataloader.py:34-38 | an existing stage after a wrap is the same stage reading from the wrapper instead of the wrapped stage |
| PipelineGraph.FindSameRoles | python/dgl/graphbolt/dataloader.py:26-29 | lookups depend only on roles |
| PipelineGraph.FindWrapped | python/dgl/graphbolt/dataloader.py:34-38 | the new wrapper is found by lookups of its own kind and by no other |
| PipelineGraph.FindWrapEachOther | python/dgl/graphbolt/dataloader.py:30-38 | wrapping with another kind leaves a lookup unchanged |
| PipelineGraph.FindWrapEachSame | python/dgl/graphbolt/dataloader.py:30-38 | wrapping n parents adds exactly n stages of the wrapper's kind |
| PipelineGraph.WrapEachKeeps | python/dgl/graphbolt/dataloader.py:30-38 | wrapping keeps well-formedness, acyclicity, every existing role and stream, and the parents of stages that read from no wrapped id |
| PipelineGraph.WrapEachChildless | python/dgl/graphbolt/dataloader.py:30-38 | a stage no one reads from stays so unless it is itself wrapped |
| PipelineGraph.WrapParentsKeeps | python/dgl/graphbolt/dataloader.py:22-38 | a pass keeps well-formedness, acyclicity, existing roles and streams, and the parents of stages that read from no recorded parent |
| PipelineGraph.FindWrapParentsOther | python/dgl/graphbolt/dataloader.py:22-38 | a pass leaves lookups of other kinds unchanged |
| PipelineGraph.FindWrapParentsSame | python/dgl/graphbolt/dataloader.py:22-38 | a pass adds one stage of the wrapper's kind per recorded parent |
| PipelineGraph.WrapParentsChildless | python/dgl/graphbolt/dataloader.py:22-38 | a pass whose recorded parents lie below a childless stage keeps it childless |
| PipelineGraph.WrapEachOne | python/dgl/graphbolt/dataloader.py:32-38 | wrapping a single parent is one `replace_dp` |
| PipelineGraph.WrappedSoleParent | python/dgl/graphbolt/dataloader.py:34-38 | a stage with a single parent keeps its role and stream and reads the new wrapper exactly when its parent is the wrapped stage |
| PipelineGraph.WrapEachReader | python/dgl/graphbolt/dataloader.py:30-38 | after wrapping a list of parents in turn, an existing stage's reference to a listed parent reads the first wrapper made for it, and every other reference is unchanged |
| PipelineGraph.WrapEachWrapperRole | python/dgl/graphbolt/dataloader.py:30-38 | every stage the wraps add has the wrapper's role, no stream and a single parent |
| PipelineGraph.WrapEachLastWrapper | python/dgl/graphbolt/dataloader.py:30-38 | the wrapper made for a parent that is not listed again reads that parent itself |
| PipelineGraph.WrapEachNextWrapper | python/dgl/graphbolt/dataloader.py:30-38 | the wrapper made for a parent that is listed again reads the wrapper made for its next occurrence, so repeated parents give a chain of wrappers ending at the parent |
| PipelineGraph.WrapParentsRedirect | python/dgl/graphbolt/dataloader.py:22-38 | after one `_find_and_wrap_parent` pass, a reference to a recorded parent reads a new single-parent stage of the wrapper's role, and any other reference is unchanged |
| PipelineGraph.AdjacencyCovers | python/dgl/graphbolt/dataloader.py:183 | a graph's adjacency has an entry for every stage, and names only its stages when the graph is well formed |
| Rewrite.Pipeline.constructor | python/dgl/graphbolt/dataloader.py:181-182 | the live pipeline starts as the given graph |
| Rewrite.Pipeline.Add | python/dgl/graphbolt/dataloader.py:37 | constructing a wrapper appends one stage reading from its argument and changes nothing else |
| Rewrite.Pipeline.Replace | python/dgl/graphbolt/dataloader.py:34-38 | every stage except the new one reads from the wrapper wherever it read from the replaced stage; nothing else changes |
| Rewrite.Pipeline.WrapParent | python/dgl/graphbolt/dataloader.py:34-38 | one wrap in place leaves exactly `Wrapped` of the old pipeline |
| Rewrite.Pipeline.SetStream | python/dgl/graphbolt/dataloader.py:223 | only the given stage's stream changes |
| Rewrite.FindAndWrapParent | python/dgl/graphbolt/dataloader.py:22-38 | the nested loops leave exactly `WrapParents` of the old pipeline, with targets and parents read from the given snapshot and adjacency |
| Rewrite.WrapEachParent | python/dgl/graphbolt/dataloader.py:32-38 | the inner loop wraps the parents of one target in order |
| Loader.EffectivePersistentWorkers | python/dgl/graphbolt/dataloader.py:119 | workers persist only if persistence is asked for and there is at least one worker; in that case they always persist |
| Loader.OffloadRole | python/dgl/graphbolt/dataloader.py:113-119 | pass 2's wrapper is a `MultiprocessingWrapper` with the configured worker count, persistent exactly when there are workers and persistence is asked for |
| Loader.OverlapEnabled | python/dgl/graphbolt/dataloader.py:212-216 | pass 3 runs only when overlap is asked for and CUDA is available, never with workers, so the offloading wrapper then has no workers and no persistence |
| Loader.Rooted | python/dgl/graphbolt/dataloader.py:181 | the end marker is one new stage reading from the terminal stage; the user's stages are unchanged |
| Loader.Sharded | python/dgl/graphbolt/dataloader.py:189-198 | pass 1 adds one stage per item sampler and keeps every existing stage's role and stream |
| Loader.ShardedCount | python/dgl/graphbolt/dataloader.py:189-198 | pass 1 adds one sharding stage per item sampler |
| Loader.WithStream | python/dgl/graphbolt/dataloader.py:222-223 | exactly the listed stages get the stream; edges and roles are unchanged |
| Loader.Prepared | python/dgl/graphbolt/dataloader.py:183-198 | after pass 1, lookups of every kind other than sharding find what they found before it; the adjacency covers them and names only existing stages |
| Loader.OverlapPass | python/dgl/graphbolt/dataloader.py:218-236 | pass 3 as written adds two stages per parent recorded for an end marker |
| Loader.Rewritten | python/dgl/graphbolt/dataloader.py:200-246 | passes 2 to 4 only add stages |
| Loader.Build | python/dgl/graphbolt/dataloader.py:181-246 | the built pipeline has at least as many stages as the user's pipeline plus the end marker |
| Loader.SnapshotCovers | python/dgl/graphbolt/dataloader.py:183-198 | the adjacency built before pass 1 covers every lookup in passes 2 to 4 and names only live stages, so no pass fails |
| Loader.UvaStreamCache.constructor | python/dgl/graphbolt/dataloader.py:129 | no stream exists before the first call |
| Loader.UvaStreamCache.Get | python/dgl/graphbolt/dataloader.py:128-131 | the first call creates the stream and every later call returns that same stream |
| Loader.DataLoader.constructor | python/dgl/graphbolt/dataloader.py:166-250 | the constructor leaves the live pipeline equal to `Build`, rooted at the new end marker; the UVA stream is fetched exactly when overlap is on and there is a feature fetcher |
| Loader.RewriteAll | python/dgl/graphbolt/dataloader.py:182-246 | the body of the constructor on the live pipeline leaves exactly `Build` |
| Loader.ShardItemSamplers | python/dgl/graphbolt/dataloader.py:189-198 | pass 1 in place leaves exactly `Sharded` of the old pipeline |
| Loader.ShareUvaStream | python/dgl/graphbolt/dataloader.py:218-223 | every feature fetcher gets the one shared stream; the memo is filled only if some fetcher exists |
| Loader.RewritePasses | python/dgl/graphbolt/dataloader.py:200-246 | passes 2 to 4 in place leave exactly `Rewritten` |
| Loader.OverlapFeatureFetch | python/dgl/graphbolt/dataloader.py:212-236 | pass 3 runs exactly under its condition and then leaves `OverlapPass`; otherwise nothing changes |
| Loader.FindRooted | python/dgl/graphbolt/dataloader.py:181-182 | rooting adds one end marker and no stage of any other kind |
| Loader.FindFeatureFetchers | python/dgl/graphbolt/dataloader.py:218-221 | the feature fetchers found after pass 1 are exactly the user's |
| LoaderFacts.RootedAcyclic | python/dgl/graphbolt/dataloader.py:181 | rooting a DAG keeps it a DAG |
| LoaderFacts.WithStreamKeeps | python/dgl/graphbolt/dataloader.py:222-223 | setting streams keeps well-formedness and acyclicity |
| LoaderFacts.FindExactly | python/dgl/graphbolt/dataloader.py:26-29 | a stage is found exactly when its role is of the looked-up kind |
| LoaderFacts.OverlapPassShape | python/dgl/graphbolt/dataloader.py:218-236 | pass 3 keeps a DAG a DAG and keeps roles; a stage gets the stream exactly when it is a looked-up feature fetcher |
| LoaderFacts.OverlapPassOther | python/dgl/graphbolt/dataloader.py:224-236 | pass 3 leaves lookups of kinds other than `Bufferer` and `Awaiter` unchanged |
| LoaderFacts.OverlapPassBufferers | python/dgl/graphbolt/dataloader.py:224-230 | pass 3 adds one `Bufferer` per recorded parent of an end marker |
| LoaderFacts.OverlapPassAwaiters | python/dgl/graphbolt/dataloader.py:231-236 | pass 3 adds one `Awaiter` per recorded parent of an end marker |
| LoaderFacts.RewrittenShape | python/dgl/graphbolt/dataloader.py:200-246 | passes 2 to 4 keep a DAG a DAG and keep roles; a stage has the stream exactly when overlap is on and it is a feature fetcher, otherwise it keeps its own |
| LoaderFacts.RewrittenMultiprocessingWrappers | python/dgl/graphbolt/dataloader.py:200-208 | passes 2 to 4 add one `MultiprocessingWrapper` per recorded parent of a feature fetcher |
| LoaderFacts.RewrittenOverlapWrappers | python/dgl/graphbolt/dataloader.py:210-236 | passes 2 to 4 add one `Bufferer` and one `Awaiter` per recorded parent of an end marker when overlap is on, and none otherwise |
| LoaderFacts.RewrittenPrefetchers | python/dgl/graphbolt/dataloader.py:238-246 | passes 2 to 4 add one `Prefetcher` per recorded parent of a copy stage |
| LoaderFacts.RewrittenOthers | python/dgl/graphbolt/dataloader.py:200-246 | passes 2 to 4 leave lookups of every kind they do not insert unchanged |
| LoaderFacts.RewrittenChildless | python/dgl/graphbolt/dataloader.py:200-246 | passes 2 to 4 keep a childless stage childless when all recorded parents lie below it |
| LoaderFacts.RecordedRooted | python/dgl/graphbolt/dataloader.py:181-183 | the parents recorded in the rooted graph for a kind are the user graph's, plus the terminal stage for end markers |
| LoaderFacts.PreparedFor | python/dgl/graphbolt/dataloader.py:183-198 | after pass 1, a non-sharding lookup finds what it found before it and is covered by the adjacency |
| LoaderFacts.SnapshotRecorded | python/dgl/graphbolt/dataloader.py:183-198 | the parents recorded for the snapshot's targets are those recorded in the rooted graph |
| LoaderFacts.BuildAcyclic | python/dgl/graphbolt/dataloader.py:181-246 | the loader turns a DAG into a DAG |
| LoaderFacts.BuildRoot | python/dgl/graphbolt/dataloader.py:181-246 | the end marker stays the root: no stage reads from it |
| LoaderFacts.ShardedChildless | python/dgl/graphbolt/dataloader.py:181-198 | pass 1 leaves the end marker in place and unread |
| LoaderFacts.BuildKeepsStages | python/dgl/graphbolt/dataloader.py:181-246 | user stages keep their roles; a user stage's stream is the shared one exactly when it is a feature fetcher and overlap is on |
| LoaderFacts.BuildFindsUserStages | python/dgl/graphbolt/dataloader.py:181-246 | a lookup of any kind the passes do not insert finds the user's stages of that kind plus the end marker |
| LoaderFacts.BuildShardingFilters | python/dgl/graphbolt/dataloader.py:189-198 | the loader adds one sharding stage per item sampler |
| LoaderFacts.BuildMultiprocessingWrappers | python/dgl/graphbolt/dataloader.py:200-208 | the loader adds one `MultiprocessingWrapper` per parent recorded for a feature fetcher |
| LoaderFacts.BuildOverlapWrappers | python/dgl/graphbolt/dataloader.py:210-236 | the loader adds one stage of kind `Bufferer` and one of kind `Awaiter` per recorded parent of an end marker, including the terminal stage, when overlap is on, and none otherwise |
| LoaderFacts.BuildPrefetchers | python/dgl/graphbolt/dataloader.py:238-246 | the loader adds one stage of kind `Prefetcher` per parent recorded for a copy stage |
| LoaderFacts.WrapParentsSlot | python/dgl/graphbolt/dataloader.py:22-38 | one pass seen from one reference: a recorded parent is now read through a new wrapper, any other reference is unchanged, and a wrapper read before is still read |
| LoaderFacts.OverlapPassSlot | python/dgl/graphbolt/dataloader.py:218-236 | pass 3 as written, seen from one reference: a parent recorded for an end marker is now read through a `Bufferer(2)`; any other reference is unchanged |
| LoaderFacts.RewrittenSlot | python/dgl/graphbolt/dataloader.py:200-246 | passes 2 to 4 seen from one reference: the first pass whose recorded parents include the referenced stage puts its wrapper in between, and later passes keep it |
| LoaderFacts.ShardedSlotAt | python/dgl/graphbolt/dataloader.py:189-198 | pass 1 seen from one reference: a reference to an item sampler now reads a new sharding stage; any other reference is unchanged |
| LoaderFacts.ShardedSlot | python/dgl/graphbolt/dataloader.py:181-198 | the same for a reference of a stage of the rooted pipeline, which always names a user stage |
| LoaderFacts.BuildPassesSlot | python/dgl/graphbolt/dataloader.py:183-246 | passes 2 to 4 of the loader seen from one reference, in terms of the parents the user's pipeline records for feature fetchers, end markers (plus the terminal stage) and copy stages |
| LoaderFacts.BuildRedirects | python/dgl/graphbolt/dataloader.py:181-246 | every reference of a user stage or the end marker to a parent now reads a new single-parent wrapper of the role `RedirectedTo` picks (sharding for an item sampler, else the first of passes 2, 3, 4 that records the parent), or still reads the parent when no pass records it |
| LoaderFacts.RecordedParent | python/dgl/graphbolt/dataloader.py:26-32 | a parent of a stage of a kind is among the parents recorded for that kind |
| LoaderFacts.BuildItemSamplerReaders | python/dgl/graphbolt/dataloader.py:189-198 | a user stage that read an item sampler now reads a sharding stage |
| LoaderFacts.BuildFeatureFetcherReads | python/dgl/graphbolt/dataloader.py:200-208 | a feature fetcher reads each parent through a `MultiprocessingWrapper` configured from the options, or through a sharding stage when that parent is an item sampler |
| LoaderFacts.BuildEndMarkerReads | python/dgl/graphbolt/dataloader.py:224-230 | with overlap on, the end marker reads the terminal stage through a `Bufferer(2)` unless an earlier pass wrapped it; with overlap off and nothing recording the terminal stage, it still reads the terminal stage |
| LoaderFacts.BuildCopyToReads | python/dgl/graphbolt/dataloader.py:238-246 | a copy stage always reads each parent through a new wrapper: a `Prefetcher(2)` unless an earlier pass already put its own wrapper there |
| OverlapOrder.Rewrap | python/dgl/graphbolt/dataloader.py:22-38 | a pass with a fresh adjacency keeps well-formedness and adds one wrapper per currently recorded parent |
| OverlapOrder.OverlapPassFresh | python/dgl/graphbolt/dataloader.py:218-236 | the intended pass 3 keeps the graph well formed and only adds stages |
| OverlapOrder.OverlapWraps | python/dgl/graphbolt/dataloader.py:224-236 | the intended pair of wraps keeps the graph well formed and only adds stages |
| OverlapOrder.RewrittenFresh | python/dgl/graphbolt/dataloader.py:200-246 | passes 2 to 4 with the intended pass 3 only add stages |
| OverlapOrder.BuildFresh | python/dgl/graphbolt/dataloader.py:181-246 | the loader with the intended pass 3 has at least as many stages as the user's pipeline plus the end marker |
| OverlapOrder.OverlapPassStale | python/dgl/graphbolt/dataloader.py:224-236 | as written, the end marker ends up reading from the `Bufferer`, which reads from the `Awaiter`, which reads from the original parent |
| OverlapOrder.WrapSoleParent | python/dgl/graphbolt/dataloader.py:22-38 | with a fresh lookup, a single target's single parent is wrapped once and the target reads from the wrapper |
| OverlapOrder.FreshWrapsOrder | python/dgl/graphbolt/dataloader.py:224-236 | the intended pair of wraps puts the `Awaiter` between the end marker and the `Bufferer` |
| OverlapOrder.StreamedEndMarker | python/dgl/graphbolt/dataloader.py:222-223 | setting the stream leaves the end marker and its parent alone |
| OverlapOrder.FreshOverlapOrder | python/dgl/graphbolt/dataloader.py:224-236 | the intended pass 3 gives end marker ← `Awaiter` ← `Bufferer(2)` ← parent |
| OverlapOrder.StaleDiffersFromFresh | python/dgl/graphbolt/dataloader.py:224-236 | from the same graph, the pass as written and the pass as intended give the end marker different parents |
| OverlapOrder.RecordedAvoids | python/dgl/graphbolt/dataloader.py:183 | a stage read by no one is never a recorded parent |
| OverlapOrder.ShardedRoot | python/dgl/graphbolt/dataloader.py:189-198 | pass 1 leaves the end marker reading from the terminal stage unless that stage is an item sampler |
| OverlapOrder.OffloadedRoot | python/dgl/graphbolt/dataloader.py:200-208 | before pass 3, the end marker still reads from the terminal stage alone |
| OverlapOrder.WrapParentsKeepsChain | python/dgl/graphbolt/dataloader.py:238-246 | pass 4 leaves alone a chain of stages that it does not wrap |
| OverlapOrder.RewrittenStale | python/dgl/graphbolt/dataloader.py:224-246 | the chain pass 3 builds as written survives pass 4 |
| OverlapOrder.BuildOverlapped | python/dgl/graphbolt/dataloader.py:210-246 | with overlap on, the loader is pass 4 over pass 3 over pass 2 |
| OverlapOrder.StaleEndMarker | python/dgl/graphbolt/dataloader.py:224-236 | pass 3 records the terminal stage as the only parent of an end marker |
| OverlapOrder.StaleCopy | python/dgl/graphbolt/dataloader.py:240-246 | pass 4 never records the terminal stage when nothing reads from it |
| OverlapOrder.StaleSetup | python/dgl/graphbolt/dataloader.py:181-208 | what the loader's pipeline satisfies before pass 3 |
| OverlapOrder.BuildOverlapOrder | python/dgl/graphbolt/dataloader.py:181-246 | as written, the loader's end marker reads from a `Bufferer(2)`, which reads from an `Awaiter`, which reads from the terminal stage; the buffered items are not awaited downstream of the buffer |
| OverlapOrder.FreshSetup | python/dgl/graphbolt/dataloader.py:200-208 | after pass 2, the graph is well formed and its only end marker is the new one |
| OverlapOrder.RewrittenFreshChain | python/dgl/graphbolt/dataloader.py:224-246 | the intended pass 3 builds end marker ← `Awaiter` ← `Bufferer(2)` ← terminal, and pass 4 keeps it |
| OverlapOrder.BuildFreshOverlapped | python/dgl/graphbolt/dataloader.py:210-246 | with overlap on, the intended loader is pass 4 over the intended pass 3 over pass 2 |
| OverlapOrder.BuildFreshOverlapOrder | python/dgl/graphbolt/dataloader.py:181-246 | with the intended pass 3, the loader's end marker reads from an `Awaiter`, which reads from a `Bufferer(2)`, which reads from the terminal stage |

## Left out

- Worker processes and the PyTorch `DataLoader` are not modelled: that includes `MultiprocessingWrapper.__iter__` (`python/dgl/graphbolt/dataloader.py:122-123`), its construction of the inner `torch.utils.data.DataLoader` (lines 115-120) and the outer `super().__init__` (line 250). Only the persistence rule at line 119 and the wrapper's place in the graph are modelled.
- The `Prefetcher`'s background thread and `sharding_filter`'s split across workers are library code. Only where their stages sit in the graph is modelled.
- `torch.cuda.is_available()` and stream creation are inputs: `cudaAvailable`, and `created`, the stream the device library would create. `set_max_uva_threads` (line 217) is a call into the device library. `max_uva_threads` is only stored in `Config`.
- `wait()` on a device copy becomes setting a `ready` flag. Asynchrony, and failures raised by the copy, are not modelled.
- Iteration is modelled as whole passes: a stage maps what its upstream yields to what it yields. Generator laziness, interleaving between stages and early termination are not modelled.
- `Rewrite.FindAndWrapParent`: requires that the adjacency covers every target and names only live stages. In the source a missing key would raise `KeyError`. `Loader.SnapshotCovers` proves this never happens in `DataLoader`, so that error path is not modelled.
- `PipelineGraph.Find`: the order in which `find_dps` returns stages is modelled as increasing id order. The library does not document its traversal order. Only the order of wraps depends on it, not the set of stages or edges.
- `replace_dp` is modelled as substitution in the arena: every stage that currently reads the replaced stage is redirected to the wrapper. The library's `replace_dp` redirects only the readers recorded in the graph it is handed, and `_find_and_wrap_parent` is always handed the graph as it stood after pass 1, because the rebinding at line 34 is local to the function. The two agree while the recorded readers still read the parent. They differ once a parent has already been wrapped: the library then leaves the readers alone and the new wrapper unread, while the arena model re-points the earlier wrapper at the new one. This affects pass 3's `Awaiter` wrap, and pass 4 when a copy stage shares its parent with a feature fetcher. The library's implementation is not part of this model.
- `Config.numWorkers` is an unbounded integer, as in the source. A negative worker count makes the PyTorch `DataLoader` built inside `MultiprocessingWrapper` raise an error; that library check is not modelled.
- The Python identities `id(datapipe)` become arena indices. The `traverse_dps` graph and the adjacency list become `Graph` values. The graph rebinding at line 34 is local to the function and has no effect outside it, which the model reflects by returning nothing.

## Findings

| source | as written | input that shows it | evidently intended | confidence | as-written member | corrected member |
|---|---|---|---|---|---|---|
| python/dgl/graphbolt/dataloader.py:183-236 | Pass 3 wraps the end marker's parent twice. Both wraps look the parent up in the adjacency built at line 183, before any pass. In the arena model of `replace_dp`: the first wrap inserts `Bufferer(2)` between the end marker and the terminal stage. The second wrap then finds the terminal stage again and puts `Awaiter` underneath the buffer, so the result is end marker ← `Bufferer(2)` ← `Awaiter` ← terminal | overlap on, no workers, CUDA available; any pipeline without an end marker of its own whose terminal stage is not an item sampler and is read by no other stage, e.g. the one-stage pipeline `[Other]` | end marker ← `Awaiter` ← `Bufferer(2)` ← terminal: the buffer holds two items whose copies are in flight, and each item is awaited as it leaves the buffer | not executed; under the library's attribute-walking `replace_dp` the second wrap would instead find no reader of the terminal stage and have no effect, and in both readings the buffered items are not awaited when they leave the loader | OverlapOrder.BuildOverlapOrder | OverlapOrder.BuildFreshOverlapOrder |

The as-written half builds on `Loader.OverlapPass` and `OverlapOrder.OverlapPassStale`. The corrected half, `OverlapOrder.BuildFresh`, makes pass 3 look its targets and their parents up in the pipeline as it stands when pass 3 starts (`OverlapOrder.OverlapPassFresh`, proved in `OverlapOrder.FreshOverlapOrder`). `Loader.DataLoader` models the constructor as written, so that its contract describes the code itself.
