/**
 * The order of the two overlap wrappers. Pass 3 wraps the end marker's parent first by
 * `Bufferer(2)` and then by `Awaiter`, meaning the awaiter to sit between the end marker
 * and the buffer: end marker <- `Awaiter` <- `Bufferer(2)` <- parent. As written, both
 * wraps look the parent up in the adjacency recorded before any pass. In this model's
 * reading of `replace_dp`, which redirects every reader of the wrapped stage in the arena,
 * the second wrap then wraps the original parent again, underneath the buffer:
 * end marker <- `Bufferer(2)` <- `Awaiter` <- parent. The library's own `replace_dp`,
 * which only redirects the readers recorded in the graph it is handed, would instead leave
 * the `Awaiter` unread; in both readings no `Awaiter` sits downstream of the buffer.
 */
module OverlapOrder {
  import opened Wrappers
  import opened PipelineGraph
  import opened Loader
  import opened LoaderFacts

  /**
   * `_find_and_wrap_parent` as evidently intended: the stages of kind `k` and their parents
   * are looked up in the graph as it is when the pass starts.
   */
  function Rewrap(g: Graph, k: Kind, role: Role): (r: Graph)
    requires WellFormed(g)
    ensures WellFormed(r)
    ensures |r| == |g| + |Recorded(g, k)|
  {
    AdjacencyCovers(g, k);
    WrapParentsKeeps(g, g, Adjacency(g), k, role);
    WrapParents(g, g, Adjacency(g), k, role)
  }

  /** The overlap pass as evidently intended: each of its two wraps reads the graph as it is then. */
  function OverlapPassFresh(live: Graph, s: Stream): (r: Graph)
    requires WellFormed(live)
    ensures WellFormed(r) && |r| >= |live|
  {
    WithStreamKeeps(live, Find(live, FeatureFetcherKind), s);
    OverlapWraps(WithStream(live, Find(live, FeatureFetcherKind), s))
  }

  /** The two wraps of the intended pass 3: first `Bufferer(2)`, then `Awaiter`, each on a fresh lookup. */
  function OverlapWraps(g: Graph): (r: Graph)
    requires WellFormed(g)
    ensures WellFormed(r) && |r| >= |g|
  {
    Rewrap(Rewrap(g, EndMarkerKind, Bufferer(OverlapBufferSize)), EndMarkerKind, Awaiter)
  }

  /**
   * Passes 2 to 4 with pass 3 as evidently intended: passes 2 and 4 as written, pass 3
   * looking the end markers and their parents up in the pipeline as pass 2 leaves it.
   */
  function RewrittenFresh(snapshot: Graph, adj: seq<seq<Id>>, cfg: Config, cudaAvailable: bool, s: Stream): (r: Graph)
    requires WellFormed(snapshot)
    requires Covers(adj, snapshot, FeatureFetcherKind) && Covers(adj, snapshot, CopyToKind)
    requires AdjacencyWithin(adj, |snapshot|)
    ensures |r| >= |snapshot|
  {
    WrapParentsKeeps(snapshot, snapshot, adj, FeatureFetcherKind, OffloadRole(cfg));
    var offloaded := WrapParents(snapshot, snapshot, adj, FeatureFetcherKind, OffloadRole(cfg));
    var overlapped := if OverlapEnabled(cfg, cudaAvailable) then OverlapPassFresh(offloaded, s) else offloaded;
    AdjacencyWithinGrows(adj, |snapshot|, |overlapped|);
    WrapParents(overlapped, snapshot, adj, CopyToKind, Prefetcher(PrefetchBufferSize))
  }

  /** `DataLoader(datapipe, ...)` with pass 3 as evidently intended. */
  function BuildFresh(datapipe: Graph, terminal: Id, cfg: Config, cudaAvailable: bool, s: Stream): (r: Graph)
    requires WellFormed(datapipe) && terminal < |datapipe|
    ensures |r| >= |datapipe| + 1
  {
    SnapshotCovers(datapipe, terminal);
    PreparedFor(datapipe, terminal, EndMarkerKind);
    var rooted := Rooted(datapipe, terminal);
    RewrittenFresh(Sharded(rooted), Adjacency(rooted), cfg, cudaAvailable, s)
  }

  /** The parents recorded for the single stage `x` are its own parents. */
  lemma ParentsOfSingle(adj: seq<seq<Id>>, x: Id)
    requires x < |adj|
    ensures ParentsOf(adj, [x]) == adj[x]
  {
    assert [x][..0] == [];
  }

  /**
   * Pass 3 as written, when the parents recorded for the end markers are just `t`, the
   * single parent of the end marker `root`: the buffer `|live|` is wrapped around `t` first
   * and becomes `root`'s parent; then `t` is wrapped again, so the awaiter `|live| + 1` ends
   * up between the buffer and `t`.
   */
  lemma OverlapPassStale(live: Graph, snapshot: Graph, adj: seq<seq<Id>>, s: Stream, t: Id, root: Id)
    requires Covers(adj, snapshot, EndMarkerKind) && AdjacencyWithin(adj, |live|)
    requires forall j :: 0 <= j < |Find(snapshot, FeatureFetcherKind)| ==> Find(snapshot, FeatureFetcherKind)[j] < |live|
    requires ParentsOf(adj, Find(snapshot, EndMarkerKind)) == [t]
    requires root < |live| && t < |live| && root != t && live[root].parents == [t]
    ensures |OverlapPass(live, snapshot, adj, s)| == |live| + 2
    ensures OverlapPass(live, snapshot, adj, s)[root].parents == [|live|]
    ensures OverlapPass(live, snapshot, adj, s)[|live|] == Stage(Bufferer(OverlapBufferSize), [|live| + 1], None)
    ensures OverlapPass(live, snapshot, adj, s)[|live| + 1] == Stage(Awaiter, [t], None)
  {
    var b := |live|;
    var streamed := WithStream(live, Find(snapshot, FeatureFetcherKind), s);
    assert streamed[root].parents == [t];
    var buffered := WrapParents(streamed, snapshot, adj, EndMarkerKind, Bufferer(OverlapBufferSize));
    WrapEachOne(streamed, t, Bufferer(OverlapBufferSize));
    assert buffered == Wrapped(streamed, t, Bufferer(OverlapBufferSize));
    assert buffered[root].parents == Substitute([t], t, b);
    AdjacencyWithinGrows(adj, |live|, |buffered|);
    var awaited := WrapParents(buffered, snapshot, adj, EndMarkerKind, Awaiter);
    WrapEachOne(buffered, t, Awaiter);
    assert awaited == Wrapped(buffered, t, Awaiter);
    assert awaited[root].parents == Substitute([b], t, b + 1);
    assert awaited[b].parents == Substitute([t], t, b + 1);
  }

  /**
   * One intended wrap when the only stage of kind `k` is `x` and its only parent is `p`:
   * `p` is wrapped once and the wrapper becomes `x`'s parent.
   */
  lemma WrapSoleParent(g: Graph, k: Kind, role: Role, x: Id, p: Id, n: nat)
    requires WellFormed(g) && Find(g, k) == [x] && x < |g| && g[x].parents == [p] && p != x
    requires KindOf(role) != k && n == |g|
    ensures p < |g| && Rewrap(g, k, role) == Wrapped(g, p, role) && |Wrapped(g, p, role)| == n + 1
    ensures Wrapped(g, p, role)[x].parents == [n]
    ensures Find(Wrapped(g, p, role), k) == [x]
  {
    assert g[x].parents[0] == p;
    AdjacencyCovers(g, k);
    ParentsOfSingle(Adjacency(g), x);
    WrapEachOne(g, p, role);
    FindWrapped(g, p, role, k);
    WrappedAt(g, p, role, x);
  }

  /**
   * The two intended wraps on a graph whose only end marker is `root`, with the single parent
   * `t`: the buffer `|g|` is wrapped around `t`, then the awaiter `|g| + 1` around the end
   * marker's new parent, the buffer.
   */
  lemma FreshWrapsOrder(g: Graph, t: Id, root: Id, n: nat)
    requires WellFormed(g) && Find(g, EndMarkerKind) == [root]
    requires root < |g| && g[root].parents == [t] && t != root && n == |g|
    ensures |OverlapWraps(g)| == n + 2
    ensures OverlapWraps(g)[root].parents == [n + 1]
    ensures OverlapWraps(g)[n + 1]
            == Stage(Awaiter, [n], None)
    ensures OverlapWraps(g)[n]
            == Stage(Bufferer(OverlapBufferSize), [t], None)
  {
    assert KindOf(Bufferer(OverlapBufferSize)) == BuffererKind && KindOf(Awaiter) == AwaiterKind;
    WrapSoleParent(g, EndMarkerKind, Bufferer(OverlapBufferSize), root, t, n);
    var buffered := Wrapped(g, t, Bufferer(OverlapBufferSize));
    WrapSoleParent(buffered, EndMarkerKind, Awaiter, root, n, n + 1);
    WrappedAt(buffered, n, Awaiter, n);
    var ts := Substitute([t], n, n + 1);
    assert |ts| == 1 && ts[0] == t;
    assert ts == [t];
  }

  /** Setting the feature fetchers' stream leaves the end marker and its parent where they were. */
  lemma StreamedEndMarker(live: Graph, s: Stream, t: Id, root: Id)
    requires WellFormed(live) && Find(live, EndMarkerKind) == [root]
    requires root < |live| && live[root].parents == [t]
    ensures WellFormed(WithStream(live, Find(live, FeatureFetcherKind), s))
    ensures Find(WithStream(live, Find(live, FeatureFetcherKind), s), EndMarkerKind) == [root]
    ensures WithStream(live, Find(live, FeatureFetcherKind), s)[root].parents == [t]
  {
    var streamed := WithStream(live, Find(live, FeatureFetcherKind), s);
    WithStreamKeeps(live, Find(live, FeatureFetcherKind), s);
    FindSameRoles(streamed, live, EndMarkerKind);
  }

  /** The intended pass 3 puts the awaiter between the end marker and the buffer. */
  lemma FreshOverlapOrder(live: Graph, s: Stream, t: Id, root: Id)
    requires WellFormed(live) && Find(live, EndMarkerKind) == [root]
    requires root < |live| && live[root].parents == [t] && t != root
    ensures |OverlapPassFresh(live, s)| == |live| + 2
    ensures OverlapPassFresh(live, s)[root].parents == [|live| + 1]
    ensures OverlapPassFresh(live, s)[|live| + 1] == Stage(Awaiter, [|live|], None)
    ensures OverlapPassFresh(live, s)[|live|] == Stage(Bufferer(OverlapBufferSize), [t], None)
  {
    var streamed := WithStream(live, Find(live, FeatureFetcherKind), s);
    assert OverlapPassFresh(live, s) == OverlapWraps(streamed);
    StreamedEndMarker(live, s, t, root);
    FreshWrapsOrder(streamed, t, root, |live|);
  }

  /**
   * From the same graph, pass 3 as written and as intended build different pipelines: the
   * end marker reads from the buffer in the first and from the awaiter in the second.
   */
  lemma StaleDiffersFromFresh(live: Graph, s: Stream, t: Id, root: Id)
    requires WellFormed(live) && Find(live, EndMarkerKind) == [root]
    requires root < |live| && live[root].parents == [t] && t != root
    ensures Covers(Adjacency(live), live, EndMarkerKind) && AdjacencyWithin(Adjacency(live), |live|)
    ensures OverlapPass(live, live, Adjacency(live), s)[root].parents == [|live|]
    ensures OverlapPassFresh(live, s)[root].parents == [|live| + 1]
  {
    AdjacencyCovers(live, EndMarkerKind);
    ParentsOfSingle(Adjacency(live), root);
    OverlapPassStale(live, live, Adjacency(live), s, t, root);
    FreshOverlapOrder(live, s, t, root);
  }

  /** When no stage of the user's pipeline reads from `terminal`, no recorded parent is `terminal`. */
  lemma RecordedAvoids(datapipe: Graph, terminal: Id, k: Kind)
    requires WellFormed(datapipe)
    requires forall i :: 0 <= i < |datapipe| ==> terminal !in datapipe[i].parents
    ensures forall x :: x in Recorded(datapipe, k) ==> x < |datapipe| && x != terminal
  {
    var ts := Find(datapipe, k);
    forall x | x in Recorded(datapipe, k)
      ensures x < |datapipe| && x != terminal
    {
      ParentsOfMembers(Adjacency(datapipe), ts, x);
      var j :| 0 <= j < |ts| && x in Adjacency(datapipe)[ts[j]];
      assert x in datapipe[ts[j]].parents;
    }
  }

  /** Pass 1 leaves the end marker reading from the terminal stage when that stage is not an item sampler. */
  lemma ShardedRoot(datapipe: Graph, terminal: Id)
    requires WellFormed(datapipe) && terminal < |datapipe|
    requires KindOf(datapipe[terminal].role) != ItemSamplerKind
    ensures |Sharded(Rooted(datapipe, terminal))| == |datapipe| + 1 + |Find(datapipe, ItemSamplerKind)|
    ensures Sharded(Rooted(datapipe, terminal))[|datapipe|].parents == [terminal]
  {
    var rooted := Rooted(datapipe, terminal);
    var samplers := Find(rooted, ItemSamplerKind);
    FindRooted(datapipe, terminal, ItemSamplerKind);
    assert rooted[terminal] == datapipe[terminal];
    assert terminal !in samplers;
    WrapEachKeeps(rooted, samplers, ShardingFilter);
  }

  /**
   * Before pass 3, in the pipeline as `DataLoader` rewrites it: the end marker still reads from
   * the terminal stage alone, provided that stage is not an item sampler and that nothing
   * else reads from it; passes 1 and 2 have added one stage per item sampler and one per
   * recorded parent of a feature fetcher.
   */
  lemma OffloadedRoot(datapipe: Graph, terminal: Id, cfg: Config)
    requires WellFormed(datapipe) && terminal < |datapipe|
    requires KindOf(datapipe[terminal].role) != ItemSamplerKind
    requires forall i :: 0 <= i < |datapipe| ==> terminal !in datapipe[i].parents
    ensures Covers(Adjacency(Rooted(datapipe, terminal)), Sharded(Rooted(datapipe, terminal)), FeatureFetcherKind)
    ensures AdjacencyWithin(Adjacency(Rooted(datapipe, terminal)), |Sharded(Rooted(datapipe, terminal))|)
    ensures |WrapParents(Sharded(Rooted(datapipe, terminal)), Sharded(Rooted(datapipe, terminal)),
                         Adjacency(Rooted(datapipe, terminal)), FeatureFetcherKind, OffloadRole(cfg))|
            == |datapipe| + 1 + |Find(datapipe, ItemSamplerKind)| + |Recorded(datapipe, FeatureFetcherKind)|
    ensures WrapParents(Sharded(Rooted(datapipe, terminal)), Sharded(Rooted(datapipe, terminal)),
                        Adjacency(Rooted(datapipe, terminal)), FeatureFetcherKind, OffloadRole(cfg))[|datapipe|].parents
            == [terminal]
  {
    var rooted := Rooted(datapipe, terminal);
    ShardedRoot(datapipe, terminal);
    var snapshot := Sharded(rooted);
    var adj := Adjacency(rooted);
    SnapshotRecorded(datapipe, terminal, FeatureFetcherKind);
    AdjacencyWithinGrows(adj, |datapipe|, |snapshot|);
    RecordedAvoids(datapipe, terminal, FeatureFetcherKind);
    WrapParentsKeeps(snapshot, snapshot, adj, FeatureFetcherKind, OffloadRole(cfg));
  }

  /**
   * A `_find_and_wrap_parent` pass that wraps none of the parents along a chain
   * `root` <- `x` <- `y` <- `t` leaves the three stages of the chain as they were.
   */
  lemma WrapParentsKeepsChain(live: Graph, snapshot: Graph, adj: seq<seq<Id>>, k: Kind, role: Role, root: Id, x: Id, y: Id, t: Id)
    requires Covers(adj, snapshot, k) && AdjacencyWithin(adj, |live|)
    requires root < |live| && x < |live| && y < |live|
    requires live[root].parents == [x] && live[x].parents == [y] && live[y].parents == [t]
    requires x !in ParentsOf(adj, Find(snapshot, k)) && y !in ParentsOf(adj, Find(snapshot, k))
    requires t !in ParentsOf(adj, Find(snapshot, k))
    ensures WrapParents(live, snapshot, adj, k, role)[root] == live[root]
    ensures WrapParents(live, snapshot, adj, k, role)[x] == live[x]
    ensures WrapParents(live, snapshot, adj, k, role)[y] == live[y]
  {
    WrapParentsKeeps(live, snapshot, adj, k, role);
  }

  /**
   * Passes 3 and 4 as written, from the pipeline pass 2 leaves: when the recorded parents of
   * the end marker are the terminal stage alone and the prefetcher pass wraps neither it nor
   * the new stages, the chain the overlap pass builds survives to the end.
   */
  lemma RewrittenStale(offloaded: Graph, snapshot: Graph, adj: seq<seq<Id>>, s: Stream, t: Id, root: Id)
    requires Covers(adj, snapshot, EndMarkerKind) && Covers(adj, snapshot, CopyToKind)
    requires AdjacencyWithin(adj, |offloaded|)
    requires forall j :: 0 <= j < |Find(snapshot, FeatureFetcherKind)| ==> Find(snapshot, FeatureFetcherKind)[j] < |offloaded|
    requires ParentsOf(adj, Find(snapshot, EndMarkerKind)) == [t]
    requires forall x :: x in ParentsOf(adj, Find(snapshot, CopyToKind)) ==> x < |offloaded| && x != t
    requires root < |offloaded| && t < |offloaded| && root != t && offloaded[root].parents == [t]
    ensures var g := WrapParents(OverlapPass(offloaded, snapshot, adj, s), snapshot, adj, CopyToKind, Prefetcher(PrefetchBufferSize));
            var b := |offloaded|;
            && b + 1 < |g|
            && g[root].parents == [b]
            && g[b] == Stage(Bufferer(OverlapBufferSize), [b + 1], None)
            && g[b + 1] == Stage(Awaiter, [t], None)
  {
    var b := |offloaded|;
    OverlapPassStale(offloaded, snapshot, adj, s, t, root);
    var overlapped := OverlapPass(offloaded, snapshot, adj, s);
    AdjacencyWithinGrows(adj, b, |overlapped|);
    WrapParentsKeepsChain(overlapped, snapshot, adj, CopyToKind, Prefetcher(PrefetchBufferSize), root, b, b + 1, t);
  }

  /** With overlap on, `Build` is pass 4 over the overlap pass over pass 2 over the snapshot. */
  lemma BuildOverlapped(datapipe: Graph, terminal: Id, cfg: Config, cudaAvailable: bool, s: Stream)
    requires WellFormed(datapipe) && terminal < |datapipe| && OverlapEnabled(cfg, cudaAvailable)
    ensures Covers(Adjacency(Rooted(datapipe, terminal)), Sharded(Rooted(datapipe, terminal)), FeatureFetcherKind)
    ensures Covers(Adjacency(Rooted(datapipe, terminal)), Sharded(Rooted(datapipe, terminal)), EndMarkerKind)
    ensures Covers(Adjacency(Rooted(datapipe, terminal)), Sharded(Rooted(datapipe, terminal)), CopyToKind)
    ensures AdjacencyWithin(Adjacency(Rooted(datapipe, terminal)), |Sharded(Rooted(datapipe, terminal))|)
    ensures AdjacencyWithin(Adjacency(Rooted(datapipe, terminal)), |WrapParents(Sharded(Rooted(datapipe, terminal)), Sharded(Rooted(datapipe, terminal)), Adjacency(Rooted(datapipe, terminal)), FeatureFetcherKind, OffloadRole(cfg))|)
    ensures forall j :: 0 <= j < |Find(Sharded(Rooted(datapipe, terminal)), FeatureFetcherKind)| ==>
              Find(Sharded(Rooted(datapipe, terminal)), FeatureFetcherKind)[j] < |WrapParents(Sharded(Rooted(datapipe, terminal)), Sharded(Rooted(datapipe, terminal)), Adjacency(Rooted(datapipe, terminal)), FeatureFetcherKind, OffloadRole(cfg))|
    ensures AdjacencyWithin(Adjacency(Rooted(datapipe, terminal)), |OverlapPass(WrapParents(Sharded(Rooted(datapipe, terminal)), Sharded(Rooted(datapipe, terminal)), Adjacency(Rooted(datapipe, terminal)), FeatureFetcherKind, OffloadRole(cfg)), Sharded(Rooted(datapipe, terminal)), Adjacency(Rooted(datapipe, terminal)), s)|)
    ensures Build(datapipe, terminal, cfg, cudaAvailable, s)
            == WrapParents(OverlapPass(WrapParents(Sharded(Rooted(datapipe, terminal)), Sharded(Rooted(datapipe, terminal)), Adjacency(Rooted(datapipe, terminal)), FeatureFetcherKind, OffloadRole(cfg)), Sharded(Rooted(datapipe, terminal)), Adjacency(Rooted(datapipe, terminal)), s), Sharded(Rooted(datapipe, terminal)), Adjacency(Rooted(datapipe, terminal)), CopyToKind, Prefetcher(PrefetchBufferSize))
  {
    Prepared(datapipe, terminal);
    var rooted := Rooted(datapipe, terminal);
    var snapshot := Sharded(rooted);
    var adj := Adjacency(rooted);
    AdjacencyWithinGrows(adj, |datapipe|, |snapshot|);
    var offloaded := WrapParents(snapshot, snapshot, adj, FeatureFetcherKind, OffloadRole(cfg));
    AdjacencyWithinGrows(adj, |snapshot|, |offloaded|);
    AdjacencyWithinGrows(adj, |offloaded|, |OverlapPass(offloaded, snapshot, adj, s)|);
  }

  /** Pass 3, on a pipeline without an end marker of its own, records the terminal stage alone. */
  lemma StaleEndMarker(datapipe: Graph, terminal: Id)
    requires WellFormed(datapipe) && terminal < |datapipe| && Find(datapipe, EndMarkerKind) == []
    ensures Covers(Adjacency(Rooted(datapipe, terminal)), Sharded(Rooted(datapipe, terminal)), EndMarkerKind)
    ensures ParentsOf(Adjacency(Rooted(datapipe, terminal)), Find(Sharded(Rooted(datapipe, terminal)), EndMarkerKind)) == [terminal]
  {
    SnapshotRecorded(datapipe, terminal, EndMarkerKind);
    assert Recorded(datapipe, EndMarkerKind) == [];
  }

  /** Pass 4 records user stages only, and not the terminal stage when no stage reads from it. */
  lemma StaleCopy(datapipe: Graph, terminal: Id)
    requires WellFormed(datapipe) && terminal < |datapipe|
    requires forall i :: 0 <= i < |datapipe| ==> terminal !in datapipe[i].parents
    ensures Covers(Adjacency(Rooted(datapipe, terminal)), Sharded(Rooted(datapipe, terminal)), CopyToKind)
    ensures forall x :: x in ParentsOf(Adjacency(Rooted(datapipe, terminal)), Find(Sharded(Rooted(datapipe, terminal)), CopyToKind)) ==> x < |datapipe| && x != terminal
  {
    SnapshotRecorded(datapipe, terminal, CopyToKind);
    RecordedAvoids(datapipe, terminal, CopyToKind);
  }

  /** Everything `RewrittenStale` asks of the pipeline `DataLoader` has after pass 2. */
  lemma StaleSetup(datapipe: Graph, terminal: Id, cfg: Config)
    requires WellFormed(datapipe) && terminal < |datapipe| && Find(datapipe, EndMarkerKind) == []
    requires KindOf(datapipe[terminal].role) != ItemSamplerKind
    requires forall i :: 0 <= i < |datapipe| ==> terminal !in datapipe[i].parents
    ensures Covers(Adjacency(Rooted(datapipe, terminal)), Sharded(Rooted(datapipe, terminal)), FeatureFetcherKind)
    ensures Covers(Adjacency(Rooted(datapipe, terminal)), Sharded(Rooted(datapipe, terminal)), EndMarkerKind)
    ensures Covers(Adjacency(Rooted(datapipe, terminal)), Sharded(Rooted(datapipe, terminal)), CopyToKind)
    ensures AdjacencyWithin(Adjacency(Rooted(datapipe, terminal)), |Sharded(Rooted(datapipe, terminal))|)
    ensures AdjacencyWithin(Adjacency(Rooted(datapipe, terminal)), |WrapParents(Sharded(Rooted(datapipe, terminal)), Sharded(Rooted(datapipe, terminal)), Adjacency(Rooted(datapipe, terminal)), FeatureFetcherKind, OffloadRole(cfg))|)
    ensures forall j :: 0 <= j < |Find(Sharded(Rooted(datapipe, terminal)), FeatureFetcherKind)| ==>
              Find(Sharded(Rooted(datapipe, terminal)), FeatureFetcherKind)[j] < |WrapParents(Sharded(Rooted(datapipe, terminal)), Sharded(Rooted(datapipe, terminal)), Adjacency(Rooted(datapipe, terminal)), FeatureFetcherKind, OffloadRole(cfg))|
    ensures ParentsOf(Adjacency(Rooted(datapipe, terminal)), Find(Sharded(Rooted(datapipe, terminal)), EndMarkerKind)) == [terminal]
    ensures forall x :: x in ParentsOf(Adjacency(Rooted(datapipe, terminal)), Find(Sharded(Rooted(datapipe, terminal)), CopyToKind)) ==>
              x < |WrapParents(Sharded(Rooted(datapipe, terminal)), Sharded(Rooted(datapipe, terminal)), Adjacency(Rooted(datapipe, terminal)), FeatureFetcherKind, OffloadRole(cfg))| && x != terminal
    ensures |datapipe| < |WrapParents(Sharded(Rooted(datapipe, terminal)), Sharded(Rooted(datapipe, terminal)), Adjacency(Rooted(datapipe, terminal)), FeatureFetcherKind, OffloadRole(cfg))| && terminal < |WrapParents(Sharded(Rooted(datapipe, terminal)), Sharded(Rooted(datapipe, terminal)), Adjacency(Rooted(datapipe, terminal)), FeatureFetcherKind, OffloadRole(cfg))|
    ensures WrapParents(Sharded(Rooted(datapipe, terminal)), Sharded(Rooted(datapipe, terminal)), Adjacency(Rooted(datapipe, terminal)), FeatureFetcherKind, OffloadRole(cfg))[|datapipe|].parents == [terminal]
  {
    var rooted := Rooted(datapipe, terminal);
    var adj := Adjacency(rooted);
    var snapshot := Sharded(rooted);
    StaleEndMarker(datapipe, terminal);
    StaleCopy(datapipe, terminal);
    OffloadedRoot(datapipe, terminal, cfg);
    var offloaded := WrapParents(snapshot, snapshot, adj, FeatureFetcherKind, OffloadRole(cfg));
    AdjacencyWithinGrows(adj, |snapshot|, |offloaded|);
  }

  /**
   * `DataLoader` as written, with overlap on, on a pipeline without an end marker of its own
   * whose terminal stage is not an item sampler and is read by no other stage: the end
   * marker reads from the `Bufferer(2)`, which reads from the `Awaiter`, which reads from the
   * terminal stage; the buffer is not awaited downstream of it.
   */
  lemma BuildOverlapOrder(datapipe: Graph, terminal: Id, cfg: Config, cudaAvailable: bool, s: Stream)
    requires WellFormed(datapipe) && terminal < |datapipe|
    requires OverlapEnabled(cfg, cudaAvailable) && Find(datapipe, EndMarkerKind) == []
    requires KindOf(datapipe[terminal].role) != ItemSamplerKind
    requires forall i :: 0 <= i < |datapipe| ==> terminal !in datapipe[i].parents
    ensures exists b: Id :: b + 1 < |Build(datapipe, terminal, cfg, cudaAvailable, s)| && Build(datapipe, terminal, cfg, cudaAvailable, s)[|datapipe|].parents == [b]
                           && Build(datapipe, terminal, cfg, cudaAvailable, s)[b] == Stage(Bufferer(OverlapBufferSize), [b + 1], None)
                           && Build(datapipe, terminal, cfg, cudaAvailable, s)[b + 1] == Stage(Awaiter, [terminal], None)
  {
    var rooted := Rooted(datapipe, terminal);
    var adj := Adjacency(rooted);
    var snapshot := Sharded(rooted);
    StaleSetup(datapipe, terminal, cfg);
    var offloaded := WrapParents(snapshot, snapshot, adj, FeatureFetcherKind, OffloadRole(cfg));
    RewrittenStale(offloaded, snapshot, adj, s, terminal, |datapipe|);
    BuildOverlapped(datapipe, terminal, cfg, cudaAvailable, s);
    var g := Build(datapipe, terminal, cfg, cudaAvailable, s);
    assert |offloaded| + 1 < |g| && g[|datapipe|].parents == [|offloaded|]
           && g[|offloaded|] == Stage(Bufferer(OverlapBufferSize), [|offloaded| + 1], None)
           && g[|offloaded| + 1] == Stage(Awaiter, [terminal], None);
  }

  /** After pass 2, the pipeline is well formed and its only end marker is the one `DataLoader` adds. */
  lemma FreshSetup(datapipe: Graph, terminal: Id, cfg: Config)
    requires WellFormed(datapipe) && terminal < |datapipe| && Find(datapipe, EndMarkerKind) == []
    ensures Covers(Adjacency(Rooted(datapipe, terminal)), Sharded(Rooted(datapipe, terminal)), FeatureFetcherKind)
    ensures AdjacencyWithin(Adjacency(Rooted(datapipe, terminal)), |Sharded(Rooted(datapipe, terminal))|)
    ensures WellFormed(WrapParents(Sharded(Rooted(datapipe, terminal)), Sharded(Rooted(datapipe, terminal)), Adjacency(Rooted(datapipe, terminal)), FeatureFetcherKind, OffloadRole(cfg)))
    ensures Find(WrapParents(Sharded(Rooted(datapipe, terminal)), Sharded(Rooted(datapipe, terminal)), Adjacency(Rooted(datapipe, terminal)), FeatureFetcherKind, OffloadRole(cfg)), EndMarkerKind) == [|datapipe|]
  {
    var rooted := Rooted(datapipe, terminal);
    var snapshot := Sharded(rooted);
    var adj := Adjacency(rooted);
    SnapshotCovers(datapipe, terminal);
    PreparedFor(datapipe, terminal, EndMarkerKind);
    FindRooted(datapipe, terminal, EndMarkerKind);
    assert KindOf(OffloadRole(cfg)) == MultiprocessingWrapperKind;
    WrapParentsKeeps(snapshot, snapshot, adj, FeatureFetcherKind, OffloadRole(cfg));
    FindWrapParentsOther(snapshot, snapshot, adj, FeatureFetcherKind, OffloadRole(cfg), EndMarkerKind);
  }

  /**
   * Passes 3 and 4 as intended, from the pipeline pass 2 leaves: when the end marker `root`
   * reads from `t` alone and the prefetcher pass wraps neither `t` nor the new stages, the
   * end marker ends up reading from the `Awaiter`, which reads from the `Bufferer(2)`,
   * which reads from `t`.
   */
  lemma RewrittenFreshChain(offloaded: Graph, snapshot: Graph, adj: seq<seq<Id>>, s: Stream, t: Id, root: Id)
    requires WellFormed(offloaded) && Find(offloaded, EndMarkerKind) == [root]
    requires Covers(adj, snapshot, CopyToKind) && AdjacencyWithin(adj, |offloaded|)
    requires forall x :: x in ParentsOf(adj, Find(snapshot, CopyToKind)) ==> x < |offloaded| && x != t
    requires root < |offloaded| && root != t && offloaded[root].parents == [t]
    ensures AdjacencyWithin(adj, |OverlapPassFresh(offloaded, s)|)
    ensures |offloaded| + 1 < |WrapParents(OverlapPassFresh(offloaded, s), snapshot, adj, CopyToKind, Prefetcher(PrefetchBufferSize))|
    ensures WrapParents(OverlapPassFresh(offloaded, s), snapshot, adj, CopyToKind, Prefetcher(PrefetchBufferSize))[root].parents
            == [|offloaded| + 1]
    ensures WrapParents(OverlapPassFresh(offloaded, s), snapshot, adj, CopyToKind, Prefetcher(PrefetchBufferSize))[|offloaded| + 1]
            == Stage(Awaiter, [|offloaded|], None)
    ensures WrapParents(OverlapPassFresh(offloaded, s), snapshot, adj, CopyToKind, Prefetcher(PrefetchBufferSize))[|offloaded|]
            == Stage(Bufferer(OverlapBufferSize), [t], None)
  {
    FreshOverlapOrder(offloaded, s, t, root);
    AdjacencyWithinGrows(adj, |offloaded|, |OverlapPassFresh(offloaded, s)|);
    WrapParentsKeepsChain(OverlapPassFresh(offloaded, s), snapshot, adj, CopyToKind, Prefetcher(PrefetchBufferSize),
                          root, |offloaded| + 1, |offloaded|, t);
  }

  /** With overlap on, `BuildFresh` is pass 4 over the intended pass 3 over pass 2 over the snapshot. */
  lemma BuildFreshOverlapped(datapipe: Graph, terminal: Id, cfg: Config, cudaAvailable: bool, s: Stream)
    requires WellFormed(datapipe) && terminal < |datapipe| && OverlapEnabled(cfg, cudaAvailable)
    ensures WellFormed(Sharded(Rooted(datapipe, terminal)))
    ensures Covers(Adjacency(Rooted(datapipe, terminal)), Sharded(Rooted(datapipe, terminal)), FeatureFetcherKind) && Covers(Adjacency(Rooted(datapipe, terminal)), Sharded(Rooted(datapipe, terminal)), CopyToKind)
    ensures AdjacencyWithin(Adjacency(Rooted(datapipe, terminal)), |Sharded(Rooted(datapipe, terminal))|)
    ensures WellFormed(WrapParents(Sharded(Rooted(datapipe, terminal)), Sharded(Rooted(datapipe, terminal)), Adjacency(Rooted(datapipe, terminal)), FeatureFetcherKind, OffloadRole(cfg)))
    ensures AdjacencyWithin(Adjacency(Rooted(datapipe, terminal)), |OverlapPassFresh(WrapParents(Sharded(Rooted(datapipe, terminal)), Sharded(Rooted(datapipe, terminal)), Adjacency(Rooted(datapipe, terminal)), FeatureFetcherKind, OffloadRole(cfg)), s)|)
    ensures BuildFresh(datapipe, terminal, cfg, cudaAvailable, s)
            == WrapParents(OverlapPassFresh(WrapParents(Sharded(Rooted(datapipe, terminal)), Sharded(Rooted(datapipe, terminal)), Adjacency(Rooted(datapipe, terminal)), FeatureFetcherKind, OffloadRole(cfg)), s), Sharded(Rooted(datapipe, terminal)), Adjacency(Rooted(datapipe, terminal)), CopyToKind, Prefetcher(PrefetchBufferSize))
  {
    var rooted := Rooted(datapipe, terminal);
    var snapshot := Sharded(rooted);
    var adj := Adjacency(rooted);
    SnapshotCovers(datapipe, terminal);
    PreparedFor(datapipe, terminal, EndMarkerKind);
    WrapParentsKeeps(snapshot, snapshot, adj, FeatureFetcherKind, OffloadRole(cfg));
    var offloaded := WrapParents(snapshot, snapshot, adj, FeatureFetcherKind, OffloadRole(cfg));
    AdjacencyWithinGrows(adj, |snapshot|, |OverlapPassFresh(offloaded, s)|);
  }

  /**
   * `DataLoader` with pass 3 as intended, on the same pipelines as `BuildOverlapOrder`: the
   * end marker reads from the `Awaiter`, which reads from the `Bufferer(2)`, which reads
   * from the terminal stage, so every buffered item is awaited before it leaves the loader.
   */
  lemma BuildFreshOverlapOrder(datapipe: Graph, terminal: Id, cfg: Config, cudaAvailable: bool, s: Stream)
    requires WellFormed(datapipe) && terminal < |datapipe|
    requires OverlapEnabled(cfg, cudaAvailable) && Find(datapipe, EndMarkerKind) == []
    requires KindOf(datapipe[terminal].role) != ItemSamplerKind
    requires forall i :: 0 <= i < |datapipe| ==> terminal !in datapipe[i].parents
    ensures exists b: Id :: b + 1 < |BuildFresh(datapipe, terminal, cfg, cudaAvailable, s)|
                           && BuildFresh(datapipe, terminal, cfg, cudaAvailable, s)[|datapipe|].parents == [b + 1]
                           && BuildFresh(datapipe, terminal, cfg, cudaAvailable, s)[b + 1] == Stage(Awaiter, [b], None)
                           && BuildFresh(datapipe, terminal, cfg, cudaAvailable, s)[b] == Stage(Bufferer(OverlapBufferSize), [terminal], None)
  {
    var rooted := Rooted(datapipe, terminal);
    var adj := Adjacency(rooted);
    var snapshot := Sharded(rooted);
    StaleSetup(datapipe, terminal, cfg);
    FreshSetup(datapipe, terminal, cfg);
    var offloaded := WrapParents(snapshot, snapshot, adj, FeatureFetcherKind, OffloadRole(cfg));
    RewrittenFreshChain(offloaded, snapshot, adj, s, terminal, |datapipe|);
    BuildFreshOverlapped(datapipe, terminal, cfg, cudaAvailable, s);
    var g := BuildFresh(datapipe, terminal, cfg, cudaAvailable, s);
    assert |offloaded| + 1 < |g| && g[|datapipe|].parents == [|offloaded| + 1]
           && g[|offloaded| + 1] == Stage(Awaiter, [|offloaded|], None)
           && g[|offloaded|] == Stage(Bufferer(OverlapBufferSize), [terminal], None);
  }
}
