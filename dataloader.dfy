/**
 * `DataLoader`: roots the user's pipeline in an `EndMarker` and rewrites it in four
 * passes, in this order:
 *   1. every `ItemSampler` is replaced by its sharding form;
 *   2. the parents of every `FeatureFetcher` are wrapped by a `MultiprocessingWrapper`;
 *   3. only when overlap is requested, there are no worker processes and CUDA is
 *      available: every `FeatureFetcher` is given the shared UVA stream, and the
 *      `EndMarker`'s parent is wrapped by `Bufferer(2)` and then by `Awaiter`;
 *   4. always, the parents of every `CopyTo` are wrapped by `Prefetcher(2)`.
 * The adjacency is computed once, from the graph rooted in the `EndMarker`, and every
 * pass reuses it; passes 2 to 4 look stages up in the snapshot taken after pass 1.
 */
module Loader {
  import opened Wrappers
  import opened PipelineGraph
  import opened Rewrite

  /** The constructor's options (`max_uva_threads` is only handed to the device library). */
  datatype Config = Config(
    numWorkers: int,
    persistentWorkers: bool,
    overlapFeatureFetch: bool,
    maxUvaThreads: int)

  /** The buffer size of the `Bufferer` inserted by the overlap pass. */
  const OverlapBufferSize: nat := 2
  /** The buffer size of the `Prefetcher` inserted at `CopyTo` parents. */
  const PrefetchBufferSize: nat := 2

  /**
   * `MultiprocessingWrapper`'s effective persistence: worker processes are kept alive
   * between passes only if there are worker processes at all and persistence was asked for.
   */
  function EffectivePersistentWorkers(numWorkers: int, persistentWorkers: bool): (r: bool)
    ensures r ==> persistentWorkers
    ensures numWorkers <= 0 ==> !r
    ensures numWorkers > 0 && persistentWorkers ==> r
  {
    (numWorkers > 0) && persistentWorkers
  }

  /** The wrapper pass 2 inserts, configured with the worker count and the effective persistence. */
  function OffloadRole(cfg: Config): (r: Role)
    ensures KindOf(r) == MultiprocessingWrapperKind && r.numWorkers == cfg.numWorkers
    ensures r.persistentWorkers ==> cfg.numWorkers > 0 && cfg.persistentWorkers
    ensures cfg.numWorkers > 0 && cfg.persistentWorkers ==> r.persistentWorkers
  {
    MultiprocessingWrapper(cfg.numWorkers, EffectivePersistentWorkers(cfg.numWorkers, cfg.persistentWorkers))
  }

  /** The condition under which pass 3 runs. */
  predicate OverlapEnabled(cfg: Config, cudaAvailable: bool): (r: bool)
    ensures r ==> cfg.overlapFeatureFetch && cudaAvailable
    ensures r ==> !OffloadRole(cfg).persistentWorkers && OffloadRole(cfg).numWorkers == 0
    ensures cfg.numWorkers != 0 ==> !r
  {
    cfg.overlapFeatureFetch && cfg.numWorkers == 0 && cudaAvailable
  }

  /** `EndMarker(datapipe)`: a new root stage whose only parent is the user's terminal stage. */
  function Rooted(datapipe: Graph, terminal: Id): (g: Graph)
    requires terminal < |datapipe|
    ensures |g| == |datapipe| + 1
    ensures g[..|datapipe|] == datapipe
    ensures g[|datapipe|] == Stage(EndMarker, [terminal], None)
  {
    datapipe + [Stage(EndMarker, [terminal], None)]
  }

  /** Pass 1: every `ItemSampler` is wrapped by its sharding form, which takes its place downstream. */
  function Sharded(g: Graph): (r: Graph)
    ensures |r| == |g| + |Find(g, ItemSamplerKind)|
    ensures forall i :: 0 <= i < |g| ==> r[i].role == g[i].role && r[i].stream == g[i].stream
  {
    WrapEachKeeps(g, Find(g, ItemSamplerKind), ShardingFilter);
    WrapEach(g, Find(g, ItemSamplerKind), ShardingFilter)
  }

  /** Pass 1 adds exactly one sharding stage per item sampler. */
  lemma ShardedCount(g: Graph)
    ensures |Find(Sharded(g), ShardingFilterKind)| == |Find(g, ShardingFilterKind)| + |Find(g, ItemSamplerKind)|
  {
    assert KindOf(ShardingFilter) == ShardingFilterKind;
    FindWrapEachSame(g, Find(g, ItemSamplerKind), ShardingFilter);
  }

  /** The `stream` attribute of each stage of `ids` set to `s`. */
  function WithStream(g: Graph, ids: seq<Id>, s: Stream): (r: Graph)
    requires forall j :: 0 <= j < |ids| ==> ids[j] < |g|
    ensures |r| == |g|
    ensures forall i :: 0 <= i < |g| ==> r[i].role == g[i].role && r[i].parents == g[i].parents
    ensures forall i :: 0 <= i < |g| ==> r[i].stream == if i in ids then Some(s) else g[i].stream
    decreases |ids|
  {
    if ids == [] then g
    else
      var h := WithStream(g, ids[..|ids| - 1], s);
      var last := ids[|ids| - 1];
      assert forall i :: i in ids <==> i in ids[..|ids| - 1] || i == last;
      h[last := h[last].(stream := Some(s))]
  }

  /**
   * What the passes rely on: the rooted graph is well formed, its adjacency only names
   * its own stages, and a lookup of a feature fetcher, an end marker or a copy stage in
   * the snapshot taken after pass 1 finds the same stages as in the rooted graph (the
   * sharding stages are of none of those kinds), all of which the adjacency covers.
   */
  lemma Prepared(datapipe: Graph, terminal: Id)
    requires WellFormed(datapipe) && terminal < |datapipe|
    ensures WellFormed(Rooted(datapipe, terminal))
    ensures WellFormed(Sharded(Rooted(datapipe, terminal)))
    ensures AdjacencyWithin(Adjacency(Rooted(datapipe, terminal)), |datapipe|)
    ensures forall k :: k != ShardingFilterKind ==>
              Find(Sharded(Rooted(datapipe, terminal)), k) == Find(Rooted(datapipe, terminal), k)
    ensures forall k :: k != ShardingFilterKind ==>
              Covers(Adjacency(Rooted(datapipe, terminal)), Sharded(Rooted(datapipe, terminal)), k)
  {
    var g1 := Rooted(datapipe, terminal);
    forall i, j | 0 <= i < |g1| && 0 <= j < |g1[i].parents|
      ensures g1[i].parents[j] < |g1|
    {
      if i < |datapipe| {
        assert g1[i] == datapipe[i];
      }
    }
    WrapEachKeeps(g1, Find(g1, ItemSamplerKind), ShardingFilter);
    forall k | k != ShardingFilterKind
      ensures Find(Sharded(g1), k) == Find(g1, k)
    {
      FindWrapEachOther(g1, Find(g1, ItemSamplerKind), ShardingFilter, k);
    }
  }

  /**
   * Pass 3 as written: the feature fetchers found in `snapshot` get the stream `s`, then
   * the parents that `adj` records for the end markers of `snapshot` are wrapped by
   * `Bufferer(2)`, and the same recorded parents are wrapped again by `Awaiter`.
   */
  function OverlapPass(live: Graph, snapshot: Graph, adj: seq<seq<Id>>, s: Stream): (r: Graph)
    requires Covers(adj, snapshot, EndMarkerKind) && AdjacencyWithin(adj, |live|)
    requires forall j :: 0 <= j < |Find(snapshot, FeatureFetcherKind)| ==> Find(snapshot, FeatureFetcherKind)[j] < |live|
    ensures |r| == |live| + 2 * |ParentsOf(adj, Find(snapshot, EndMarkerKind))|
  {
    var streamed := WithStream(live, Find(snapshot, FeatureFetcherKind), s);
    var buffered := WrapParents(streamed, snapshot, adj, EndMarkerKind, Bufferer(OverlapBufferSize));
    WrapParents(buffered, snapshot, adj, EndMarkerKind, Awaiter)
  }

  /**
   * Passes 2 to 4 applied to the snapshot taken after pass 1, `s` being the stream the
   * UVA stream getter hands out. Every pass reads the same adjacency `adj` and looks its
   * targets up in the same `snapshot`.
   */
  function Rewritten(snapshot: Graph, adj: seq<seq<Id>>, cfg: Config, cudaAvailable: bool, s: Stream): (r: Graph)
    requires Covers(adj, snapshot, FeatureFetcherKind) && Covers(adj, snapshot, EndMarkerKind)
    requires Covers(adj, snapshot, CopyToKind) && AdjacencyWithin(adj, |snapshot|)
    ensures |r| >= |snapshot|
  {
    var offloaded := WrapParents(snapshot, snapshot, adj, FeatureFetcherKind, OffloadRole(cfg));
    var overlapped := if OverlapEnabled(cfg, cudaAvailable) then OverlapPass(offloaded, snapshot, adj, s) else offloaded;
    WrapParents(overlapped, snapshot, adj, CopyToKind, Prefetcher(PrefetchBufferSize))
  }

  /**
   * The graph `DataLoader(datapipe, ...)` leaves behind: the user's pipeline rooted in an
   * end marker, sharded, then rewritten by passes 2 to 4 with the adjacency of the rooted
   * graph (computed before pass 1).
   */
  function Build(datapipe: Graph, terminal: Id, cfg: Config, cudaAvailable: bool, s: Stream): (r: Graph)
    requires WellFormed(datapipe) && terminal < |datapipe|
    ensures |r| >= |datapipe| + 1
  {
    Prepared(datapipe, terminal);
    var rooted := Rooted(datapipe, terminal);
    Rewritten(Sharded(rooted), Adjacency(rooted), cfg, cudaAvailable, s)
  }

  /** What passes 2 to 4 ask of the snapshot and adjacency that pass 1 leaves. */
  lemma SnapshotCovers(datapipe: Graph, terminal: Id)
    requires WellFormed(datapipe) && terminal < |datapipe|
    ensures Covers(Adjacency(Rooted(datapipe, terminal)), Sharded(Rooted(datapipe, terminal)), FeatureFetcherKind)
    ensures Covers(Adjacency(Rooted(datapipe, terminal)), Sharded(Rooted(datapipe, terminal)), EndMarkerKind)
    ensures Covers(Adjacency(Rooted(datapipe, terminal)), Sharded(Rooted(datapipe, terminal)), CopyToKind)
    ensures AdjacencyWithin(Adjacency(Rooted(datapipe, terminal)), |Sharded(Rooted(datapipe, terminal))|)
  {
    Prepared(datapipe, terminal);
    AdjacencyWithinGrows(Adjacency(Rooted(datapipe, terminal)), |datapipe|, |Sharded(Rooted(datapipe, terminal))|);
  }

  /** The stream the getter hands out: the one already created, if any, else `created`. */
  function StreamFor(cached: Option<Stream>, created: Stream): Stream
  {
    if cached.Some? then cached.value else created
  }

  /**
   * `_get_uva_stream`: the process-wide UVA stream, created on first use and shared by
   * every later call, so that a single CUDA memory pool is used. `created` stands for the
   * stream the device library would create.
   */
  class UvaStreamCache {
    var stream: Option<Stream>

    constructor()
      ensures stream == None
    {
      stream := None;
    }

    method Get(created: Stream) returns (s: Stream)
      modifies this
      ensures s == StreamFor(old(stream), created)
      ensures stream == Some(s)
    {
      if stream.None? {
        stream := Some(created);
      }
      s := stream.value;
    }
  }

  /** `DataLoader`: owns the rewritten pipeline, rooted at the `EndMarker` with id `root`. */
  class DataLoader {
    const pipeline: Pipeline
    const root: Id

    constructor(datapipe: Graph, terminal: Id, cfg: Config, cudaAvailable: bool,
                uva: UvaStreamCache, created: Stream)
      requires WellFormed(datapipe) && terminal < |datapipe|
      modifies uva
      ensures fresh(pipeline)
      ensures root == |datapipe|
      ensures pipeline.stages == Build(datapipe, terminal, cfg, cudaAvailable, StreamFor(old(uva.stream), created))
      ensures uva.stream == if OverlapEnabled(cfg, cudaAvailable) && Find(datapipe, FeatureFetcherKind) != []
                            then Some(StreamFor(old(uva.stream), created)) else old(uva.stream)
    {
      root := |datapipe|;
      pipeline := new Pipeline(Rooted(datapipe, terminal));
      new;
      RewriteAll(pipeline, datapipe, terminal, cfg, cudaAvailable, uva, created);
    }
  }

  /** The body of `DataLoader.__init__` on the live pipeline, which holds the rooted user pipeline on entry. */
  method RewriteAll(pipeline: Pipeline, datapipe: Graph, terminal: Id, cfg: Config, cudaAvailable: bool,
                    uva: UvaStreamCache, created: Stream)
    requires WellFormed(datapipe) && terminal < |datapipe|
    requires pipeline.stages == Rooted(datapipe, terminal)
    modifies pipeline, uva
    ensures pipeline.stages == Build(datapipe, terminal, cfg, cudaAvailable, StreamFor(old(uva.stream), created))
    ensures uva.stream == if OverlapEnabled(cfg, cudaAvailable) && Find(datapipe, FeatureFetcherKind) != []
                          then Some(StreamFor(old(uva.stream), created)) else old(uva.stream)
  {
    SnapshotCovers(datapipe, terminal);
    ghost var s := StreamFor(uva.stream, created);
    ghost var rooted := Rooted(datapipe, terminal);
    var datapipeGraph := pipeline.Snapshot();
    var adjlist := Adjacency(datapipeGraph);

    // (1) Insert minibatch distribution.
    ShardItemSamplers(pipeline);
    datapipeGraph := pipeline.Snapshot();
    assert datapipeGraph == Sharded(rooted);
    FindFeatureFetchers(datapipe, terminal);
    RewritePasses(pipeline, datapipeGraph, adjlist, cfg, cudaAvailable, uva, created);
    assert Build(datapipe, terminal, cfg, cudaAvailable, s) == Rewritten(Sharded(rooted), Adjacency(rooted), cfg, cudaAvailable, s);
  }

  /** Pass 1 on the live pipeline: each item sampler found is wrapped by a sharding stage, in turn. */
  method ShardItemSamplers(pipeline: Pipeline)
    modifies pipeline
    ensures pipeline.stages == Sharded(old(pipeline.stages))
  {
    var datapipeGraph := pipeline.Snapshot();
    var itemSamplers := Find(datapipeGraph, ItemSamplerKind);
    for n := 0 to |itemSamplers|
      invariant pipeline.stages == WrapEach(datapipeGraph, itemSamplers[..n], ShardingFilter)
    {
      assert itemSamplers[..n + 1][..n] == itemSamplers[..n];
      var _ := pipeline.WrapParent(itemSamplers[n], ShardingFilter);
    }
    assert itemSamplers[..|itemSamplers|] == itemSamplers;
  }

  /**
   * The stream half of pass 3: every feature fetcher of `snapshot` is given the stream the
   * getter hands out, which is created on the first call at most and shared by all.
   */
  method ShareUvaStream(pipeline: Pipeline, snapshot: Graph, uva: UvaStreamCache, created: Stream)
    requires forall j :: 0 <= j < |Find(snapshot, FeatureFetcherKind)| ==>
               Find(snapshot, FeatureFetcherKind)[j] < |pipeline.stages|
    modifies pipeline, uva
    ensures pipeline.stages == WithStream(old(pipeline.stages), Find(snapshot, FeatureFetcherKind),
                                          StreamFor(old(uva.stream), created))
    ensures uva.stream == if Find(snapshot, FeatureFetcherKind) == [] then old(uva.stream)
                          else Some(StreamFor(old(uva.stream), created))
  {
    ghost var s := StreamFor(uva.stream, created);
    ghost var cached := uva.stream;
    ghost var live := pipeline.stages;
    var featureFetchers := Find(snapshot, FeatureFetcherKind);
    assert featureFetchers[..0] == [];
    for n := 0 to |featureFetchers|
      invariant pipeline.stages == WithStream(live, featureFetchers[..n], s)
      invariant uva.stream == if n == 0 then cached else Some(s)
    {
      assert featureFetchers[..n + 1][..n] == featureFetchers[..n];
      var stream := uva.Get(created);
      pipeline.SetStream(featureFetchers[n], stream);
    }
    assert featureFetchers[..|featureFetchers|] == featureFetchers;
  }

  /** Passes 2 to 4 on the live pipeline, which holds `snapshot` on entry. */
  method RewritePasses(pipeline: Pipeline, snapshot: Graph, adj: seq<seq<Id>>, cfg: Config,
                       cudaAvailable: bool, uva: UvaStreamCache, created: Stream)
    requires pipeline.stages == snapshot
    requires Covers(adj, snapshot, FeatureFetcherKind) && Covers(adj, snapshot, EndMarkerKind)
    requires Covers(adj, snapshot, CopyToKind) && AdjacencyWithin(adj, |snapshot|)
    modifies pipeline, uva
    ensures pipeline.stages == Rewritten(snapshot, adj, cfg, cudaAvailable, StreamFor(old(uva.stream), created))
    ensures uva.stream == if OverlapEnabled(cfg, cudaAvailable) && Find(snapshot, FeatureFetcherKind) != []
                          then Some(StreamFor(old(uva.stream), created)) else old(uva.stream)
  {
    // (2) Cut the pipeline at FeatureFetcher and wrap.
    FindAndWrapParent(pipeline, snapshot, adj, FeatureFetcherKind, OffloadRole(cfg));

    // (3) Overlap UVA feature fetching by buffering and using an alternative stream.
    OverlapFeatureFetch(pipeline, snapshot, adj, cfg, cudaAvailable, uva, created);

    // (4) Cut the pipeline at CopyTo and wrap with a prefetcher.
    FindAndWrapParent(pipeline, snapshot, adj, CopyToKind, Prefetcher(PrefetchBufferSize));
  }

  /**
   * Pass 3 on the live pipeline, when enabled: the feature fetchers share the UVA stream,
   * then the end markers' recorded parents are wrapped by `Bufferer(2)` and by `Awaiter`.
   */
  method OverlapFeatureFetch(pipeline: Pipeline, snapshot: Graph, adj: seq<seq<Id>>, cfg: Config,
                             cudaAvailable: bool, uva: UvaStreamCache, created: Stream)
    requires Covers(adj, snapshot, EndMarkerKind) && AdjacencyWithin(adj, |pipeline.stages|)
    requires forall j :: 0 <= j < |Find(snapshot, FeatureFetcherKind)| ==>
               Find(snapshot, FeatureFetcherKind)[j] < |pipeline.stages|
    modifies pipeline, uva
    ensures pipeline.stages == if OverlapEnabled(cfg, cudaAvailable)
                               then OverlapPass(old(pipeline.stages), snapshot, adj, StreamFor(old(uva.stream), created))
                               else old(pipeline.stages)
    ensures uva.stream == if OverlapEnabled(cfg, cudaAvailable) && Find(snapshot, FeatureFetcherKind) != []
                          then Some(StreamFor(old(uva.stream), created)) else old(uva.stream)
  {
    if cfg.overlapFeatureFetch && cfg.numWorkers == 0 && cudaAvailable {
      ShareUvaStream(pipeline, snapshot, uva, created);
      FindAndWrapParent(pipeline, snapshot, adj, EndMarkerKind, Bufferer(OverlapBufferSize));
      FindAndWrapParent(pipeline, snapshot, adj, EndMarkerKind, Awaiter);
    }
  }

  /** Rooting the pipeline adds one end marker and no stage of any other kind. */
  lemma FindRooted(datapipe: Graph, terminal: Id, k: Kind)
    requires terminal < |datapipe|
    ensures Find(Rooted(datapipe, terminal), k)
            == Find(datapipe, k) + (if k == EndMarkerKind then [|datapipe|] else [])
  {
    var g1 := Rooted(datapipe, terminal);
    assert g1[..|g1| - 1] == datapipe;
  }

  /** The feature fetchers found after pass 1 are exactly those of the user's pipeline. */
  lemma FindFeatureFetchers(datapipe: Graph, terminal: Id)
    requires WellFormed(datapipe) && terminal < |datapipe|
    ensures Find(Sharded(Rooted(datapipe, terminal)), FeatureFetcherKind) == Find(datapipe, FeatureFetcherKind)
  {
    Prepared(datapipe, terminal);
    FindRooted(datapipe, terminal, FeatureFetcherKind);
  }
}
