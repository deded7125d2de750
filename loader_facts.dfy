/**
 * What `DataLoader` does to the user's pipeline, stated about the graph it leaves behind:
 * the result is still a DAG rooted in the end marker, the user's stages keep their roles,
 * the feature fetchers get the shared stream exactly when overlap is on, and each pass
 * adds one wrapper per recorded parent of the stages it targets, and nothing else.
 */
module LoaderFacts {
  import opened Wrappers
  import opened PipelineGraph
  import opened Loader

  /** The parents that the adjacency of `g` records for its stages of kind `k`, in lookup order. */
  function Recorded(g: Graph, k: Kind): (r: seq<Id>)
  {
    ParentsOf(Adjacency(g), Find(g, k))
  }

  /** The kinds of the stages the passes insert. */
  predicate IsWrapperKind(k: Kind)
  {
    k == ShardingFilterKind || k == MultiprocessingWrapperKind || k == BuffererKind
    || k == AwaiterKind || k == PrefetcherKind
  }

  /** Adding the end marker on top of a DAG keeps it a DAG. */
  lemma RootedAcyclic(datapipe: Graph, terminal: Id)
    requires terminal < |datapipe| && Acyclic(datapipe)
    ensures Acyclic(Rooted(datapipe, terminal))
  {
    var rank :| RankedBy(datapipe, rank);
    var g := Rooted(datapipe, terminal);
    var rank' := rank + [rank[terminal] + 1];
    forall i, j | 0 <= i < |g| && 0 <= j < |g[i].parents|
      ensures g[i].parents[j] < |g| && rank'[g[i].parents[j]] < rank'[i]
    {
      if i < |datapipe| {
        assert g[i] == datapipe[i];
      }
    }
    assert RankedBy(g, rank');
  }

  /** Setting streams leaves the edges, hence well-formedness and acyclicity, alone. */
  lemma WithStreamKeeps(g: Graph, ids: seq<Id>, s: Stream)
    requires forall j :: 0 <= j < |ids| ==> ids[j] < |g|
    ensures WellFormed(g) ==> WellFormed(WithStream(g, ids, s))
    ensures Acyclic(g) ==> Acyclic(WithStream(g, ids, s))
  {
    var r := WithStream(g, ids, s);
    if Acyclic(g) {
      var rank :| RankedBy(g, rank);
      assert RankedBy(r, rank);
    }
  }

  /** A stage is found by a lookup of kind `k` exactly when its role is of kind `k`. */
  lemma FindExactly(g: Graph, k: Kind, i: Id)
    requires i < |g|
    ensures i in Find(g, k) <==> KindOf(g[i].role) == k
  {
    if KindOf(g[i].role) == k {
      FindComplete(g, k, i);
    }
  }

  /** Pass 3 as written keeps a DAG a DAG and existing roles, and gives the feature fetchers of `snapshot` the stream. */
  lemma {:induction false} OverlapPassShape(live: Graph, snapshot: Graph, adj: seq<seq<Id>>, s: Stream)
    requires Covers(adj, snapshot, EndMarkerKind) && AdjacencyWithin(adj, |live|)
    requires forall j :: 0 <= j < |Find(snapshot, FeatureFetcherKind)| ==> Find(snapshot, FeatureFetcherKind)[j] < |live|
    ensures Acyclic(live) ==> Acyclic(OverlapPass(live, snapshot, adj, s))
    ensures forall i :: 0 <= i < |live| ==>
              OverlapPass(live, snapshot, adj, s)[i].role == live[i].role &&
              OverlapPass(live, snapshot, adj, s)[i].stream
              == if i in Find(snapshot, FeatureFetcherKind) then Some(s) else live[i].stream
  {
    var streamed := WithStream(live, Find(snapshot, FeatureFetcherKind), s);
    WithStreamKeeps(live, Find(snapshot, FeatureFetcherKind), s);
    WrapParentsKeeps(streamed, snapshot, adj, EndMarkerKind, Bufferer(OverlapBufferSize));
    var buffered := WrapParents(streamed, snapshot, adj, EndMarkerKind, Bufferer(OverlapBufferSize));
    WrapParentsKeeps(buffered, snapshot, adj, EndMarkerKind, Awaiter);
  }

  /** Pass 3 as written leaves every lookup of a kind other than `Bufferer` and `Awaiter` unchanged. */
  lemma {:induction false} OverlapPassOther(live: Graph, snapshot: Graph, adj: seq<seq<Id>>, s: Stream, q: Kind)
    requires Covers(adj, snapshot, EndMarkerKind) && AdjacencyWithin(adj, |live|)
    requires forall j :: 0 <= j < |Find(snapshot, FeatureFetcherKind)| ==> Find(snapshot, FeatureFetcherKind)[j] < |live|
    requires q != BuffererKind && q != AwaiterKind
    ensures Find(OverlapPass(live, snapshot, adj, s), q) == Find(live, q)
  {
    assert KindOf(Bufferer(OverlapBufferSize)) == BuffererKind && KindOf(Awaiter) == AwaiterKind;
    var streamed := WithStream(live, Find(snapshot, FeatureFetcherKind), s);
    FindSameRoles(streamed, live, q);
    var buffered := WrapParents(streamed, snapshot, adj, EndMarkerKind, Bufferer(OverlapBufferSize));
    FindWrapParentsOther(streamed, snapshot, adj, EndMarkerKind, Bufferer(OverlapBufferSize), q);
    AdjacencyWithinGrows(adj, |live|, |buffered|);
    FindWrapParentsOther(buffered, snapshot, adj, EndMarkerKind, Awaiter, q);
  }

  /** Pass 3 as written adds one `Bufferer` per parent recorded for an end marker. */
  lemma {:induction false} OverlapPassBufferers(live: Graph, snapshot: Graph, adj: seq<seq<Id>>, s: Stream)
    requires Covers(adj, snapshot, EndMarkerKind) && AdjacencyWithin(adj, |live|)
    requires forall j :: 0 <= j < |Find(snapshot, FeatureFetcherKind)| ==> Find(snapshot, FeatureFetcherKind)[j] < |live|
    ensures |Find(OverlapPass(live, snapshot, adj, s), BuffererKind)|
            == |Find(live, BuffererKind)| + |ParentsOf(adj, Find(snapshot, EndMarkerKind))|
  {
    assert KindOf(Bufferer(OverlapBufferSize)) == BuffererKind && KindOf(Awaiter) == AwaiterKind;
    var streamed := WithStream(live, Find(snapshot, FeatureFetcherKind), s);
    FindSameRoles(streamed, live, BuffererKind);
    var buffered := WrapParents(streamed, snapshot, adj, EndMarkerKind, Bufferer(OverlapBufferSize));
    FindWrapParentsSame(streamed, snapshot, adj, EndMarkerKind, Bufferer(OverlapBufferSize));
    AdjacencyWithinGrows(adj, |live|, |buffered|);
    FindWrapParentsOther(buffered, snapshot, adj, EndMarkerKind, Awaiter, BuffererKind);
  }

  /** Pass 3 as written adds one `Awaiter` per parent recorded for an end marker. */
  lemma {:induction false} OverlapPassAwaiters(live: Graph, snapshot: Graph, adj: seq<seq<Id>>, s: Stream)
    requires Covers(adj, snapshot, EndMarkerKind) && AdjacencyWithin(adj, |live|)
    requires forall j :: 0 <= j < |Find(snapshot, FeatureFetcherKind)| ==> Find(snapshot, FeatureFetcherKind)[j] < |live|
    ensures |Find(OverlapPass(live, snapshot, adj, s), AwaiterKind)|
            == |Find(live, AwaiterKind)| + |ParentsOf(adj, Find(snapshot, EndMarkerKind))|
  {
    assert KindOf(Bufferer(OverlapBufferSize)) == BuffererKind;
    var streamed := WithStream(live, Find(snapshot, FeatureFetcherKind), s);
    FindSameRoles(streamed, live, AwaiterKind);
    var buffered := WrapParents(streamed, snapshot, adj, EndMarkerKind, Bufferer(OverlapBufferSize));
    FindWrapParentsOther(streamed, snapshot, adj, EndMarkerKind, Bufferer(OverlapBufferSize), AwaiterKind);
    AdjacencyWithinGrows(adj, |live|, |buffered|);
    assert KindOf(Awaiter) == AwaiterKind;
    FindWrapParentsSame(buffered, snapshot, adj, EndMarkerKind, Awaiter);
  }

  /** Passes 2 to 4 keep a DAG a DAG and existing roles, and give the feature fetchers the stream exactly when overlap is on. */
  lemma {:induction false} RewrittenShape(snapshot: Graph, adj: seq<seq<Id>>, cfg: Config, cudaAvailable: bool, s: Stream)
    requires Covers(adj, snapshot, FeatureFetcherKind) && Covers(adj, snapshot, EndMarkerKind)
    requires Covers(adj, snapshot, CopyToKind) && AdjacencyWithin(adj, |snapshot|)
    ensures Acyclic(snapshot) ==> Acyclic(Rewritten(snapshot, adj, cfg, cudaAvailable, s))
    ensures forall i :: 0 <= i < |snapshot| ==>
              Rewritten(snapshot, adj, cfg, cudaAvailable, s)[i].role == snapshot[i].role &&
              Rewritten(snapshot, adj, cfg, cudaAvailable, s)[i].stream
              == if OverlapEnabled(cfg, cudaAvailable) && KindOf(snapshot[i].role) == FeatureFetcherKind
                 then Some(s) else snapshot[i].stream
  {
    var offloaded := WrapParents(snapshot, snapshot, adj, FeatureFetcherKind, OffloadRole(cfg));
    WrapParentsKeeps(snapshot, snapshot, adj, FeatureFetcherKind, OffloadRole(cfg));
    var overlapped := if OverlapEnabled(cfg, cudaAvailable) then OverlapPass(offloaded, snapshot, adj, s) else offloaded;
    if OverlapEnabled(cfg, cudaAvailable) {
      OverlapPassShape(offloaded, snapshot, adj, s);
    }
    WrapParentsKeeps(overlapped, snapshot, adj, CopyToKind, Prefetcher(PrefetchBufferSize));
    forall i | 0 <= i < |snapshot|
      ensures i in Find(snapshot, FeatureFetcherKind) <==> KindOf(snapshot[i].role) == FeatureFetcherKind
    {
      FindExactly(snapshot, FeatureFetcherKind, i);
    }
  }

  /** Passes 2 to 4 add one `MultiprocessingWrapper` per recorded parent of a feature fetcher. */
  lemma RewrittenMultiprocessingWrappers(snapshot: Graph, adj: seq<seq<Id>>, cfg: Config, cudaAvailable: bool, s: Stream)
    requires Covers(adj, snapshot, FeatureFetcherKind) && Covers(adj, snapshot, EndMarkerKind)
    requires Covers(adj, snapshot, CopyToKind) && AdjacencyWithin(adj, |snapshot|)
    ensures |Find(Rewritten(snapshot, adj, cfg, cudaAvailable, s), MultiprocessingWrapperKind)|
            == |Find(snapshot, MultiprocessingWrapperKind)| + |ParentsOf(adj, Find(snapshot, FeatureFetcherKind))|
  {
    var offloaded := WrapParents(snapshot, snapshot, adj, FeatureFetcherKind, OffloadRole(cfg));
    var overlapped := if OverlapEnabled(cfg, cudaAvailable) then OverlapPass(offloaded, snapshot, adj, s) else offloaded;
    AdjacencyWithinGrows(adj, |snapshot|, |overlapped|);
    assert KindOf(OffloadRole(cfg)) == MultiprocessingWrapperKind;
    FindWrapParentsSame(snapshot, snapshot, adj, FeatureFetcherKind, OffloadRole(cfg));
    if OverlapEnabled(cfg, cudaAvailable) {
      OverlapPassOther(offloaded, snapshot, adj, s, MultiprocessingWrapperKind);
    }
    FindWrapParentsOther(overlapped, snapshot, adj, CopyToKind, Prefetcher(PrefetchBufferSize), MultiprocessingWrapperKind);
  }

  /** Passes 2 to 4 add, when overlap is on, one `Bufferer` and one `Awaiter` per recorded parent of an end marker. */
  lemma RewrittenOverlapWrappers(snapshot: Graph, adj: seq<seq<Id>>, cfg: Config, cudaAvailable: bool, s: Stream, q: Kind)
    requires Covers(adj, snapshot, FeatureFetcherKind) && Covers(adj, snapshot, EndMarkerKind)
    requires Covers(adj, snapshot, CopyToKind) && AdjacencyWithin(adj, |snapshot|)
    requires q == BuffererKind || q == AwaiterKind
    ensures |Find(Rewritten(snapshot, adj, cfg, cudaAvailable, s), q)|
            == |Find(snapshot, q)|
               + (if OverlapEnabled(cfg, cudaAvailable) then |ParentsOf(adj, Find(snapshot, EndMarkerKind))| else 0)
  {
    var offloaded := WrapParents(snapshot, snapshot, adj, FeatureFetcherKind, OffloadRole(cfg));
    var overlapped := if OverlapEnabled(cfg, cudaAvailable) then OverlapPass(offloaded, snapshot, adj, s) else offloaded;
    AdjacencyWithinGrows(adj, |snapshot|, |overlapped|);
    assert KindOf(OffloadRole(cfg)) == MultiprocessingWrapperKind;
    FindWrapParentsOther(snapshot, snapshot, adj, FeatureFetcherKind, OffloadRole(cfg), q);
    if OverlapEnabled(cfg, cudaAvailable) {
      if q == BuffererKind {
        OverlapPassBufferers(offloaded, snapshot, adj, s);
      } else {
        OverlapPassAwaiters(offloaded, snapshot, adj, s);
      }
    }
    FindWrapParentsOther(overlapped, snapshot, adj, CopyToKind, Prefetcher(PrefetchBufferSize), q);
  }

  /** Passes 2 to 4 add one `Prefetcher` per recorded parent of a copy stage. */
  lemma RewrittenPrefetchers(snapshot: Graph, adj: seq<seq<Id>>, cfg: Config, cudaAvailable: bool, s: Stream)
    requires Covers(adj, snapshot, FeatureFetcherKind) && Covers(adj, snapshot, EndMarkerKind)
    requires Covers(adj, snapshot, CopyToKind) && AdjacencyWithin(adj, |snapshot|)
    ensures |Find(Rewritten(snapshot, adj, cfg, cudaAvailable, s), PrefetcherKind)|
            == |Find(snapshot, PrefetcherKind)| + |ParentsOf(adj, Find(snapshot, CopyToKind))|
  {
    var offloaded := WrapParents(snapshot, snapshot, adj, FeatureFetcherKind, OffloadRole(cfg));
    var overlapped := if OverlapEnabled(cfg, cudaAvailable) then OverlapPass(offloaded, snapshot, adj, s) else offloaded;
    AdjacencyWithinGrows(adj, |snapshot|, |overlapped|);
    assert KindOf(OffloadRole(cfg)) == MultiprocessingWrapperKind;
    FindWrapParentsOther(snapshot, snapshot, adj, FeatureFetcherKind, OffloadRole(cfg), PrefetcherKind);
    if OverlapEnabled(cfg, cudaAvailable) {
      OverlapPassOther(offloaded, snapshot, adj, s, PrefetcherKind);
    }
    assert KindOf(Prefetcher(PrefetchBufferSize)) == PrefetcherKind;
    FindWrapParentsSame(overlapped, snapshot, adj, CopyToKind, Prefetcher(PrefetchBufferSize));
  }

  /** Passes 2 to 4 leave every lookup of a kind they do not insert unchanged. */
  lemma RewrittenOthers(snapshot: Graph, adj: seq<seq<Id>>, cfg: Config, cudaAvailable: bool, s: Stream, q: Kind)
    requires Covers(adj, snapshot, FeatureFetcherKind) && Covers(adj, snapshot, EndMarkerKind)
    requires Covers(adj, snapshot, CopyToKind) && AdjacencyWithin(adj, |snapshot|)
    requires q != MultiprocessingWrapperKind && q != BuffererKind && q != AwaiterKind && q != PrefetcherKind
    ensures Find(Rewritten(snapshot, adj, cfg, cudaAvailable, s), q) == Find(snapshot, q)
  {
    var offloaded := WrapParents(snapshot, snapshot, adj, FeatureFetcherKind, OffloadRole(cfg));
    var overlapped := if OverlapEnabled(cfg, cudaAvailable) then OverlapPass(offloaded, snapshot, adj, s) else offloaded;
    AdjacencyWithinGrows(adj, |snapshot|, |overlapped|);
    assert KindOf(OffloadRole(cfg)) == MultiprocessingWrapperKind;
    FindWrapParentsOther(snapshot, snapshot, adj, FeatureFetcherKind, OffloadRole(cfg), q);
    if OverlapEnabled(cfg, cudaAvailable) {
      OverlapPassOther(offloaded, snapshot, adj, s, q);
    }
    assert KindOf(Prefetcher(PrefetchBufferSize)) == PrefetcherKind;
    FindWrapParentsOther(overlapped, snapshot, adj, CopyToKind, Prefetcher(PrefetchBufferSize), q);
  }

  /** Passes 2 to 4 keep a childless stage childless when every recorded parent lies below it. */
  lemma {:induction false} RewrittenChildless(snapshot: Graph, adj: seq<seq<Id>>, cfg: Config, cudaAvailable: bool, s: Stream, x: Id)
    requires Covers(adj, snapshot, FeatureFetcherKind) && Covers(adj, snapshot, EndMarkerKind)
    requires Covers(adj, snapshot, CopyToKind) && AdjacencyWithin(adj, x)
    requires WellFormed(snapshot) && x < |snapshot| && Children(snapshot, x) == {}
    ensures Children(Rewritten(snapshot, adj, cfg, cudaAvailable, s), x) == {}
  {
    AdjacencyWithinGrows(adj, x, |snapshot|);
    var offloaded := WrapParents(snapshot, snapshot, adj, FeatureFetcherKind, OffloadRole(cfg));
    WrapParentsKeeps(snapshot, snapshot, adj, FeatureFetcherKind, OffloadRole(cfg));
    WrapParentsChildless(snapshot, snapshot, adj, FeatureFetcherKind, OffloadRole(cfg), x);
    var overlapped := if OverlapEnabled(cfg, cudaAvailable) then OverlapPass(offloaded, snapshot, adj, s) else offloaded;
    if OverlapEnabled(cfg, cudaAvailable) {
      var streamed := WithStream(offloaded, Find(snapshot, FeatureFetcherKind), s);
      WithStreamKeeps(offloaded, Find(snapshot, FeatureFetcherKind), s);
      assert Children(streamed, x) == Children(offloaded, x);
      AdjacencyWithinGrows(adj, x, |streamed|);
      WrapParentsKeeps(streamed, snapshot, adj, EndMarkerKind, Bufferer(OverlapBufferSize));
      WrapParentsChildless(streamed, snapshot, adj, EndMarkerKind, Bufferer(OverlapBufferSize), x);
      var buffered := WrapParents(streamed, snapshot, adj, EndMarkerKind, Bufferer(OverlapBufferSize));
      WrapParentsKeeps(buffered, snapshot, adj, EndMarkerKind, Awaiter);
      WrapParentsChildless(buffered, snapshot, adj, EndMarkerKind, Awaiter, x);
    }
    WrapParentsChildless(overlapped, snapshot, adj, CopyToKind, Prefetcher(PrefetchBufferSize), x);
  }

  /** Two adjacencies that agree on the targets record the same parents for them. */
  lemma {:induction false} ParentsOfAgree(a: seq<seq<Id>>, b: seq<seq<Id>>, ts: seq<Id>)
    requires forall j :: 0 <= j < |ts| ==> ts[j] < |a| && ts[j] < |b| && a[ts[j]] == b[ts[j]]
    ensures ParentsOf(a, ts) == ParentsOf(b, ts)
    decreases |ts|
  {
    if ts != [] {
      ParentsOfAgree(a, b, ts[..|ts| - 1]);
    }
  }

  /**
   * The parents the rooted graph's adjacency records for the stages of kind `k` are those the
   * user's pipeline records, followed, for the end marker kind, by the terminal stage.
   */
  lemma RecordedRooted(datapipe: Graph, terminal: Id, k: Kind)
    requires terminal < |datapipe|
    ensures forall j :: 0 <= j < |Find(Rooted(datapipe, terminal), k)| ==>
              Find(Rooted(datapipe, terminal), k)[j] < |Adjacency(Rooted(datapipe, terminal))|
    ensures ParentsOf(Adjacency(Rooted(datapipe, terminal)), Find(Rooted(datapipe, terminal), k))
            == Recorded(datapipe, k) + (if k == EndMarkerKind then [terminal] else [])
  {
    var g := Rooted(datapipe, terminal);
    var adj := Adjacency(g);
    var ts := Find(datapipe, k);
    FindRooted(datapipe, terminal, k);
    forall j | 0 <= j < |ts|
      ensures ts[j] < |adj| && ts[j] < |Adjacency(datapipe)| && adj[ts[j]] == Adjacency(datapipe)[ts[j]]
    {
      assert g[ts[j]] == datapipe[ts[j]];
    }
    ParentsOfAgree(adj, Adjacency(datapipe), ts);
    if k == EndMarkerKind {
      var us := ts + [|datapipe|];
      assert us[..|us| - 1] == ts;
      assert adj[|datapipe|] == [terminal];
      assert ParentsOf(adj, us) == ParentsOf(adj, ts) + adj[|datapipe|];
      assert Find(g, k) == us;
    } else {
      assert Find(g, k) == ts;
    }
  }

  /** What pass 1 leaves for the passes after it that look up kind `k`. */
  lemma PreparedFor(datapipe: Graph, terminal: Id, k: Kind)
    requires WellFormed(datapipe) && terminal < |datapipe| && k != ShardingFilterKind
    ensures WellFormed(Sharded(Rooted(datapipe, terminal)))
    ensures AdjacencyWithin(Adjacency(Rooted(datapipe, terminal)), |datapipe|)
    ensures Find(Sharded(Rooted(datapipe, terminal)), k) == Find(Rooted(datapipe, terminal), k)
    ensures Covers(Adjacency(Rooted(datapipe, terminal)), Sharded(Rooted(datapipe, terminal)), k)
  {
    Prepared(datapipe, terminal);
  }

  /** The parents that pass 1 leaves recorded for the stages of kind `k`, as seen from the snapshot. */
  lemma SnapshotRecorded(datapipe: Graph, terminal: Id, k: Kind)
    requires WellFormed(datapipe) && terminal < |datapipe| && k != ShardingFilterKind
    ensures Covers(Adjacency(Rooted(datapipe, terminal)), Sharded(Rooted(datapipe, terminal)), k)
    ensures AdjacencyWithin(Adjacency(Rooted(datapipe, terminal)), |datapipe|)
    ensures ParentsOf(Adjacency(Rooted(datapipe, terminal)), Find(Sharded(Rooted(datapipe, terminal)), k))
            == Recorded(datapipe, k) + (if k == EndMarkerKind then [terminal] else [])
  {
    PreparedFor(datapipe, terminal, k);
    RecordedRooted(datapipe, terminal, k);
  }

  /** The pipeline `DataLoader` builds from a DAG is a DAG. */
  lemma BuildAcyclic(datapipe: Graph, terminal: Id, cfg: Config, cudaAvailable: bool, s: Stream)
    requires Acyclic(datapipe) && WellFormed(datapipe) && terminal < |datapipe|
    ensures Acyclic(Build(datapipe, terminal, cfg, cudaAvailable, s))
  {
    Prepared(datapipe, terminal);
    var rooted := Rooted(datapipe, terminal);
    RootedAcyclic(datapipe, terminal);
    WrapEachKeeps(rooted, Find(rooted, ItemSamplerKind), ShardingFilter);
    RewrittenShape(Sharded(rooted), Adjacency(rooted), cfg, cudaAvailable, s);
  }

  /** The end marker stays the root of the pipeline `DataLoader` builds: no stage reads from it. */
  lemma BuildRoot(datapipe: Graph, terminal: Id, cfg: Config, cudaAvailable: bool, s: Stream)
    requires WellFormed(datapipe) && terminal < |datapipe|
    ensures Build(datapipe, terminal, cfg, cudaAvailable, s)[|datapipe|].role == EndMarker
    ensures Children(Build(datapipe, terminal, cfg, cudaAvailable, s), |datapipe|) == {}
  {
    var rooted := Rooted(datapipe, terminal);
    ShardedChildless(datapipe, terminal);
    PreparedFor(datapipe, terminal, EndMarkerKind);
    SnapshotCovers(datapipe, terminal);
    RewrittenChildless(Sharded(rooted), Adjacency(rooted), cfg, cudaAvailable, s, |datapipe|);
    RewrittenShape(Sharded(rooted), Adjacency(rooted), cfg, cudaAvailable, s);
  }

  /** Pass 1 leaves the end marker in place with no stage reading from it. */
  lemma ShardedChildless(datapipe: Graph, terminal: Id)
    requires WellFormed(datapipe) && terminal < |datapipe|
    ensures |datapipe| < |Sharded(Rooted(datapipe, terminal))|
    ensures Sharded(Rooted(datapipe, terminal))[|datapipe|].role == EndMarker
    ensures Children(Sharded(Rooted(datapipe, terminal)), |datapipe|) == {}
  {
    var rooted := Rooted(datapipe, terminal);
    var root := |datapipe|;
    forall c | 0 <= c < |rooted|
      ensures root !in rooted[c].parents && forall j :: 0 <= j < |rooted[c].parents| ==> rooted[c].parents[j] < |rooted|
    {
      if c < root {
        assert rooted[c] == datapipe[c];
      }
    }
    assert WellFormed(rooted);
    assert Children(rooted, root) == {};
    var samplers := Find(rooted, ItemSamplerKind);
    assert forall m :: 0 <= m < |samplers| ==> samplers[m] < |rooted| && samplers[m] != root;
    WrapEachChildless(rooted, samplers, ShardingFilter, root);
    WrapEachKeeps(rooted, samplers, ShardingFilter);
  }

  /**
   * The user's stages keep their roles in the pipeline `DataLoader` builds, and a stage's
   * stream is the shared UVA stream exactly when it is a feature fetcher and overlap is on.
   */
  lemma BuildKeepsStages(datapipe: Graph, terminal: Id, cfg: Config, cudaAvailable: bool, s: Stream)
    requires WellFormed(datapipe) && terminal < |datapipe|
    ensures forall i :: 0 <= i < |datapipe| ==>
              Build(datapipe, terminal, cfg, cudaAvailable, s)[i].role == datapipe[i].role &&
              Build(datapipe, terminal, cfg, cudaAvailable, s)[i].stream
              == if OverlapEnabled(cfg, cudaAvailable) && KindOf(datapipe[i].role) == FeatureFetcherKind
                 then Some(s) else datapipe[i].stream
  {
    Prepared(datapipe, terminal);
    var rooted := Rooted(datapipe, terminal);
    WrapEachKeeps(rooted, Find(rooted, ItemSamplerKind), ShardingFilter);
    RewrittenShape(Sharded(rooted), Adjacency(rooted), cfg, cudaAvailable, s);
    assert forall i :: 0 <= i < |datapipe| ==> rooted[i] == datapipe[i];
  }

  /**
   * The pipeline `DataLoader` builds holds the user's own stages and one more end marker; a
   * lookup of any kind the passes do not insert finds exactly those.
   */
  lemma BuildFindsUserStages(datapipe: Graph, terminal: Id, cfg: Config, cudaAvailable: bool, s: Stream, q: Kind)
    requires WellFormed(datapipe) && terminal < |datapipe| && !IsWrapperKind(q)
    ensures Find(Build(datapipe, terminal, cfg, cudaAvailable, s), q)
            == Find(datapipe, q) + (if q == EndMarkerKind then [|datapipe|] else [])
  {
    var rooted := Rooted(datapipe, terminal);
    SnapshotCovers(datapipe, terminal);
    PreparedFor(datapipe, terminal, q);
    RewrittenOthers(Sharded(rooted), Adjacency(rooted), cfg, cudaAvailable, s, q);
    FindRooted(datapipe, terminal, q);
  }

  /** Pass 1 inserts one sharding stage per item sampler. */
  lemma BuildShardingFilters(datapipe: Graph, terminal: Id, cfg: Config, cudaAvailable: bool, s: Stream)
    requires WellFormed(datapipe) && terminal < |datapipe|
    ensures |Find(Build(datapipe, terminal, cfg, cudaAvailable, s), ShardingFilterKind)|
            == |Find(datapipe, ShardingFilterKind)| + |Find(datapipe, ItemSamplerKind)|
  {
    var rooted := Rooted(datapipe, terminal);
    ShardedCount(rooted);
    SnapshotCovers(datapipe, terminal);
    RewrittenOthers(Sharded(rooted), Adjacency(rooted), cfg, cudaAvailable, s, ShardingFilterKind);
    FindRooted(datapipe, terminal, ShardingFilterKind);
    FindRooted(datapipe, terminal, ItemSamplerKind);
  }

  /** Pass 2 inserts one `MultiprocessingWrapper` per parent recorded for a feature fetcher. */
  lemma BuildMultiprocessingWrappers(datapipe: Graph, terminal: Id, cfg: Config, cudaAvailable: bool, s: Stream)
    requires WellFormed(datapipe) && terminal < |datapipe|
    ensures |Find(Build(datapipe, terminal, cfg, cudaAvailable, s), MultiprocessingWrapperKind)|
            == |Find(datapipe, MultiprocessingWrapperKind)| + |Recorded(datapipe, FeatureFetcherKind)|
  {
    var rooted := Rooted(datapipe, terminal);
    SnapshotCovers(datapipe, terminal);
    RewrittenMultiprocessingWrappers(Sharded(rooted), Adjacency(rooted), cfg, cudaAvailable, s);
    PreparedFor(datapipe, terminal, MultiprocessingWrapperKind);
    FindRooted(datapipe, terminal, MultiprocessingWrapperKind);
    SnapshotRecorded(datapipe, terminal, FeatureFetcherKind);
  }

  /**
   * Pass 3 inserts, when overlap is on, one `Bufferer(2)` and one `Awaiter` per parent recorded
   * for an end marker: the user's end markers and the one added on top, whose parent is the
   * terminal stage.
   */
  lemma BuildOverlapWrappers(datapipe: Graph, terminal: Id, cfg: Config, cudaAvailable: bool, s: Stream, q: Kind)
    requires WellFormed(datapipe) && terminal < |datapipe| && (q == BuffererKind || q == AwaiterKind)
    ensures |Find(Build(datapipe, terminal, cfg, cudaAvailable, s), q)|
            == |Find(datapipe, q)|
               + (if OverlapEnabled(cfg, cudaAvailable) then |Recorded(datapipe, EndMarkerKind)| + 1 else 0)
  {
    var rooted := Rooted(datapipe, terminal);
    SnapshotCovers(datapipe, terminal);
    RewrittenOverlapWrappers(Sharded(rooted), Adjacency(rooted), cfg, cudaAvailable, s, q);
    PreparedFor(datapipe, terminal, q);
    FindRooted(datapipe, terminal, q);
    SnapshotRecorded(datapipe, terminal, EndMarkerKind);
  }

  /** Pass 4 inserts one `Prefetcher(2)` per parent recorded for a copy stage. */
  lemma BuildPrefetchers(datapipe: Graph, terminal: Id, cfg: Config, cudaAvailable: bool, s: Stream)
    requires WellFormed(datapipe) && terminal < |datapipe|
    ensures |Find(Build(datapipe, terminal, cfg, cudaAvailable, s), PrefetcherKind)|
            == |Find(datapipe, PrefetcherKind)| + |Recorded(datapipe, CopyToKind)|
  {
    var rooted := Rooted(datapipe, terminal);
    SnapshotCovers(datapipe, terminal);
    RewrittenPrefetchers(Sharded(rooted), Adjacency(rooted), cfg, cudaAvailable, s);
    PreparedFor(datapipe, terminal, PrefetcherKind);
    FindRooted(datapipe, terminal, PrefetcherKind);
    SnapshotRecorded(datapipe, terminal, CopyToKind);
  }

  /**
   * Reference `j` of stage `i` reads a stage added by a pass (its id lies past the first `n + 1`
   * stages) whose role is `role` and which has a single parent.
   */
  ghost predicate ReadsWrapper(g: Graph, i: Id, j: nat, n: nat, role: Role)
  {
    && i < |g| && j < |g[i].parents| && n < g[i].parents[j] < |g|
    && g[g[i].parents[j]].role == role && |g[g[i].parents[j]].parents| == 1
  }

  /**
   * One `_find_and_wrap_parent` pass seen from reference `j` of stage `i`, when every recorded
   * parent lies among the first `n` stages: a recorded parent is now read through a new
   * wrapper, any other reference is left alone, and a wrapper read before is still read.
   */
  lemma WrapParentsSlot(live: Graph, snapshot: Graph, adj: seq<seq<Id>>, k: Kind, role: Role, n: nat, i: Id, j: nat)
    requires Covers(adj, snapshot, k) && AdjacencyWithin(adj, n) && n < |live|
    requires i < |live| && j < |live[i].parents|
    ensures AdjacencyWithin(adj, |live|)
    ensures |WrapParents(live, snapshot, adj, k, role)[i].parents| == |live[i].parents|
    ensures live[i].parents[j] in ParentsOf(adj, Find(snapshot, k)) ==>
              ReadsWrapper(WrapParents(live, snapshot, adj, k, role), i, j, n, role)
    ensures live[i].parents[j] !in ParentsOf(adj, Find(snapshot, k)) ==>
              WrapParents(live, snapshot, adj, k, role)[i].parents[j] == live[i].parents[j]
    ensures forall r0 :: ReadsWrapper(live, i, j, n, r0) ==> ReadsWrapper(WrapParents(live, snapshot, adj, k, role), i, j, n, r0)
  {
    AdjacencyWithinGrows(adj, n, |live|);
    WrapParentsRedirect(live, snapshot, adj, k, role, i, j);
    var v := live[i].parents[j];
    if n < v < |live| && |live[v].parents| == 1 {
      ParentsOfWithin(adj, Find(snapshot, k), n);
      assert v !in ParentsOf(adj, Find(snapshot, k));
      WrapParentsRedirect(live, snapshot, adj, k, role, v, 0);
      WrapParentsKeeps(live, snapshot, adj, k, role);
    }
  }

  /**
   * Pass 3 as written, seen from reference `j` of stage `i`: a parent recorded for an end
   * marker is now read through the `Bufferer` (the `Awaiter` goes between the `Bufferer` and
   * the parent); any other reference is left alone.
   */
  lemma OverlapPassSlot(live: Graph, snapshot: Graph, adj: seq<seq<Id>>, s: Stream, n: nat, i: Id, j: nat)
    requires Covers(adj, snapshot, EndMarkerKind) && AdjacencyWithin(adj, n) && n < |live|
    requires forall j :: 0 <= j < |Find(snapshot, FeatureFetcherKind)| ==> Find(snapshot, FeatureFetcherKind)[j] < |live|
    requires i < |live| && j < |live[i].parents|
    ensures AdjacencyWithin(adj, |live|)
    ensures |OverlapPass(live, snapshot, adj, s)[i].parents| == |live[i].parents|
    ensures live[i].parents[j] in ParentsOf(adj, Find(snapshot, EndMarkerKind)) ==>
              ReadsWrapper(OverlapPass(live, snapshot, adj, s), i, j, n, Bufferer(OverlapBufferSize))
    ensures live[i].parents[j] !in ParentsOf(adj, Find(snapshot, EndMarkerKind)) ==>
              OverlapPass(live, snapshot, adj, s)[i].parents[j] == live[i].parents[j]
    ensures forall r0 :: ReadsWrapper(live, i, j, n, r0) ==> ReadsWrapper(OverlapPass(live, snapshot, adj, s), i, j, n, r0)
  {
    AdjacencyWithinGrows(adj, n, |live|);
    var streamed := WithStream(live, Find(snapshot, FeatureFetcherKind), s);
    assert forall r0 :: ReadsWrapper(live, i, j, n, r0) ==> ReadsWrapper(streamed, i, j, n, r0);
    WrapParentsSlot(streamed, snapshot, adj, EndMarkerKind, Bufferer(OverlapBufferSize), n, i, j);
    var buffered := WrapParents(streamed, snapshot, adj, EndMarkerKind, Bufferer(OverlapBufferSize));
    WrapParentsSlot(buffered, snapshot, adj, EndMarkerKind, Awaiter, n, i, j);
  }

  /**
   * Passes 2 to 4 seen from reference `j` of stage `i`: the first pass whose recorded parents
   * include the referenced stage puts its wrapper in between, and later passes leave that
   * wrapper in place.
   */
  lemma RewrittenSlot(snapshot: Graph, adj: seq<seq<Id>>, cfg: Config, cudaAvailable: bool, s: Stream, n: nat, i: Id, j: nat)
    requires Covers(adj, snapshot, FeatureFetcherKind) && Covers(adj, snapshot, EndMarkerKind)
    requires Covers(adj, snapshot, CopyToKind) && AdjacencyWithin(adj, |snapshot|)
    requires AdjacencyWithin(adj, n) && n < |snapshot| && i < |snapshot| && j < |snapshot[i].parents|
    ensures |Rewritten(snapshot, adj, cfg, cudaAvailable, s)[i].parents| == |snapshot[i].parents|
    ensures forall r0 :: ReadsWrapper(snapshot, i, j, n, r0) ==> ReadsWrapper(Rewritten(snapshot, adj, cfg, cudaAvailable, s), i, j, n, r0)
    ensures snapshot[i].parents[j] in ParentsOf(adj, Find(snapshot, FeatureFetcherKind)) ==>
              ReadsWrapper(Rewritten(snapshot, adj, cfg, cudaAvailable, s), i, j, n, OffloadRole(cfg))
    ensures snapshot[i].parents[j] !in ParentsOf(adj, Find(snapshot, FeatureFetcherKind))
            && OverlapEnabled(cfg, cudaAvailable) && snapshot[i].parents[j] in ParentsOf(adj, Find(snapshot, EndMarkerKind)) ==>
              ReadsWrapper(Rewritten(snapshot, adj, cfg, cudaAvailable, s), i, j, n, Bufferer(OverlapBufferSize))
    ensures snapshot[i].parents[j] !in ParentsOf(adj, Find(snapshot, FeatureFetcherKind))
            && !(OverlapEnabled(cfg, cudaAvailable) && snapshot[i].parents[j] in ParentsOf(adj, Find(snapshot, EndMarkerKind)))
            && snapshot[i].parents[j] in ParentsOf(adj, Find(snapshot, CopyToKind)) ==>
              ReadsWrapper(Rewritten(snapshot, adj, cfg, cudaAvailable, s), i, j, n, Prefetcher(PrefetchBufferSize))
    ensures snapshot[i].parents[j] !in ParentsOf(adj, Find(snapshot, FeatureFetcherKind))
            && !(OverlapEnabled(cfg, cudaAvailable) && snapshot[i].parents[j] in ParentsOf(adj, Find(snapshot, EndMarkerKind)))
            && snapshot[i].parents[j] !in ParentsOf(adj, Find(snapshot, CopyToKind)) ==>
              Rewritten(snapshot, adj, cfg, cudaAvailable, s)[i].parents[j] == snapshot[i].parents[j]
  {
    WrapParentsSlot(snapshot, snapshot, adj, FeatureFetcherKind, OffloadRole(cfg), n, i, j);
    var offloaded := WrapParents(snapshot, snapshot, adj, FeatureFetcherKind, OffloadRole(cfg));
    var overlapped := if OverlapEnabled(cfg, cudaAvailable) then OverlapPass(offloaded, snapshot, adj, s) else offloaded;
    if OverlapEnabled(cfg, cudaAvailable) {
      OverlapPassSlot(offloaded, snapshot, adj, s, n, i, j);
    }
    WrapParentsSlot(overlapped, snapshot, adj, CopyToKind, Prefetcher(PrefetchBufferSize), n, i, j);
  }

  /**
   * The wrapper that `DataLoader` puts between a stage of the rooted pipeline and its parent
   * `p`, if any: the first pass whose targets include `p` decides. Pass 1 targets the item
   * samplers themselves; passes 2 to 4 the parents recorded for the feature fetchers, the end
   * markers (the added one reads the terminal stage) and the copy stages.
   */
  ghost function RedirectedTo(datapipe: Graph, terminal: Id, cfg: Config, cudaAvailable: bool, p: Id): Option<Role>
    requires p < |datapipe|
  {
    if KindOf(datapipe[p].role) == ItemSamplerKind then Some(ShardingFilter)
    else if p in Recorded(datapipe, FeatureFetcherKind) then Some(OffloadRole(cfg))
    else if OverlapEnabled(cfg, cudaAvailable) && (p in Recorded(datapipe, EndMarkerKind) || p == terminal)
    then Some(Bufferer(OverlapBufferSize))
    else if p in Recorded(datapipe, CopyToKind) then Some(Prefetcher(PrefetchBufferSize))
    else None
  }

  /** Pass 1 seen from reference `j` of stage `i`: a reference to an item sampler now reads its sharding stage. */
  lemma ShardedSlotAt(g: Graph, i: Id, j: nat)
    requires i < |g| && j < |g[i].parents| && g[i].parents[j] < |g|
    ensures |Sharded(g)[i].parents| == |g[i].parents|
    ensures KindOf(g[g[i].parents[j]].role) == ItemSamplerKind ==> ReadsWrapper(Sharded(g), i, j, |g| - 1, ShardingFilter)
    ensures KindOf(g[g[i].parents[j]].role) != ItemSamplerKind ==> Sharded(g)[i].parents[j] == g[i].parents[j]
  {
    var p := g[i].parents[j];
    var samplers := Find(g, ItemSamplerKind);
    FindExactly(g, ItemSamplerKind, p);
    WrapEachReader(g, samplers, ShardingFilter, i, j);
    assert Sharded(g) == WrapEach(g, samplers, ShardingFilter);
    if p in samplers {
      var m := FirstIndex(samplers, p);
      WrapEachWrapperRole(g, samplers, ShardingFilter, m);
      var r, w := Sharded(g), |g| + m;
      assert r[i].parents[j] == w && |g| - 1 < w < |r|;
      assert r[w].role == ShardingFilter && |r[w].parents| == 1;
      assert ReadsWrapper(r, i, j, |g| - 1, ShardingFilter);
    }
  }

  /** Pass 1 seen from reference `j` of stage `i` of the rooted pipeline. */
  lemma ShardedSlot(datapipe: Graph, terminal: Id, i: Id, j: nat)
    requires WellFormed(datapipe) && terminal < |datapipe|
    requires i <= |datapipe| && j < |Rooted(datapipe, terminal)[i].parents|
    ensures Rooted(datapipe, terminal)[i].parents[j] < |datapipe|
    ensures |Sharded(Rooted(datapipe, terminal))[i].parents| == |Rooted(datapipe, terminal)[i].parents|
    ensures KindOf(datapipe[Rooted(datapipe, terminal)[i].parents[j]].role) == ItemSamplerKind ==>
              ReadsWrapper(Sharded(Rooted(datapipe, terminal)), i, j, |datapipe|, ShardingFilter)
    ensures KindOf(datapipe[Rooted(datapipe, terminal)[i].parents[j]].role) != ItemSamplerKind ==>
              Sharded(Rooted(datapipe, terminal))[i].parents[j] == Rooted(datapipe, terminal)[i].parents[j]
  {
    var rooted := Rooted(datapipe, terminal);
    if i < |datapipe| {
      assert rooted[i] == datapipe[i];
    }
    var p := rooted[i].parents[j];
    assert p < |datapipe|;
    assert rooted[p] == datapipe[p];
    ShardedSlotAt(rooted, i, j);
  }

  /**
   * Passes 2 to 4 of `DataLoader` seen from reference `j` of stage `i`, in terms of the parents
   * the user's pipeline records: the first of those passes whose targets include the
   * referenced stage puts its wrapper in between.
   */
  lemma BuildPassesSlot(datapipe: Graph, terminal: Id, cfg: Config, cudaAvailable: bool, s: Stream, i: Id, j: nat)
    requires WellFormed(datapipe) && terminal < |datapipe|
    requires i <= |datapipe| && j < |Sharded(Rooted(datapipe, terminal))[i].parents|
    ensures |Build(datapipe, terminal, cfg, cudaAvailable, s)[i].parents| == |Sharded(Rooted(datapipe, terminal))[i].parents|
    ensures forall r0 :: ReadsWrapper(Sharded(Rooted(datapipe, terminal)), i, j, |datapipe|, r0) ==>
              ReadsWrapper(Build(datapipe, terminal, cfg, cudaAvailable, s), i, j, |datapipe|, r0)
    ensures Sharded(Rooted(datapipe, terminal))[i].parents[j] in Recorded(datapipe, FeatureFetcherKind) ==>
              ReadsWrapper(Build(datapipe, terminal, cfg, cudaAvailable, s), i, j, |datapipe|, OffloadRole(cfg))
    ensures Sharded(Rooted(datapipe, terminal))[i].parents[j] !in Recorded(datapipe, FeatureFetcherKind)
            && OverlapEnabled(cfg, cudaAvailable)
            && (Sharded(Rooted(datapipe, terminal))[i].parents[j] in Recorded(datapipe, EndMarkerKind)
                || Sharded(Rooted(datapipe, terminal))[i].parents[j] == terminal) ==>
              ReadsWrapper(Build(datapipe, terminal, cfg, cudaAvailable, s), i, j, |datapipe|, Bufferer(OverlapBufferSize))
    ensures Sharded(Rooted(datapipe, terminal))[i].parents[j] !in Recorded(datapipe, FeatureFetcherKind)
            && !(OverlapEnabled(cfg, cudaAvailable)
                 && (Sharded(Rooted(datapipe, terminal))[i].parents[j] in Recorded(datapipe, EndMarkerKind)
                     || Sharded(Rooted(datapipe, terminal))[i].parents[j] == terminal))
            && Sharded(Rooted(datapipe, terminal))[i].parents[j] in Recorded(datapipe, CopyToKind) ==>
              ReadsWrapper(Build(datapipe, terminal, cfg, cudaAvailable, s), i, j, |datapipe|, Prefetcher(PrefetchBufferSize))
    ensures Sharded(Rooted(datapipe, terminal))[i].parents[j] !in Recorded(datapipe, FeatureFetcherKind)
            && !(OverlapEnabled(cfg, cudaAvailable)
                 && (Sharded(Rooted(datapipe, terminal))[i].parents[j] in Recorded(datapipe, EndMarkerKind)
                     || Sharded(Rooted(datapipe, terminal))[i].parents[j] == terminal))
            && Sharded(Rooted(datapipe, terminal))[i].parents[j] !in Recorded(datapipe, CopyToKind) ==>
              Build(datapipe, terminal, cfg, cudaAvailable, s)[i].parents[j] == Sharded(Rooted(datapipe, terminal))[i].parents[j]
  {
    var rooted := Rooted(datapipe, terminal);
    var sharded := Sharded(rooted);
    var adj := Adjacency(rooted);
    SnapshotCovers(datapipe, terminal);
    SnapshotRecorded(datapipe, terminal, FeatureFetcherKind);
    SnapshotRecorded(datapipe, terminal, EndMarkerKind);
    SnapshotRecorded(datapipe, terminal, CopyToKind);
    RewrittenSlot(sharded, adj, cfg, cudaAvailable, s, |datapipe|, i, j);
    var v := sharded[i].parents[j];
    assert v in Recorded(datapipe, EndMarkerKind) + [terminal] <==> v in Recorded(datapipe, EndMarkerKind) || v == terminal;
  }

  /**
   * The main promise of `_find_and_wrap_parent`, for the whole of `DataLoader`: every reference
   * `j` of a stage `i` of the rooted pipeline to a parent `p` now reads a new single-parent
   * stage of the role `RedirectedTo` gives for `p`, or still reads `p` when it gives none.
   */
  lemma BuildRedirects(datapipe: Graph, terminal: Id, cfg: Config, cudaAvailable: bool, s: Stream, i: Id, j: nat)
    requires WellFormed(datapipe) && terminal < |datapipe|
    requires i <= |datapipe| && j < |Rooted(datapipe, terminal)[i].parents|
    ensures Rooted(datapipe, terminal)[i].parents[j] < |datapipe|
    ensures |Build(datapipe, terminal, cfg, cudaAvailable, s)[i].parents| == |Rooted(datapipe, terminal)[i].parents|
    ensures RedirectedTo(datapipe, terminal, cfg, cudaAvailable, Rooted(datapipe, terminal)[i].parents[j]).None? ==>
              Build(datapipe, terminal, cfg, cudaAvailable, s)[i].parents[j] == Rooted(datapipe, terminal)[i].parents[j]
    ensures RedirectedTo(datapipe, terminal, cfg, cudaAvailable, Rooted(datapipe, terminal)[i].parents[j]).Some? ==>
              ReadsWrapper(Build(datapipe, terminal, cfg, cudaAvailable, s), i, j, |datapipe|,
                RedirectedTo(datapipe, terminal, cfg, cudaAvailable, Rooted(datapipe, terminal)[i].parents[j]).value)
  {
    ShardedSlot(datapipe, terminal, i, j);
    BuildPassesSlot(datapipe, terminal, cfg, cudaAvailable, s, i, j);
  }

  /** A parent of a stage of kind `k` is among the parents recorded for kind `k`. */
  lemma RecordedParent(g: Graph, k: Kind, i: Id, j: nat)
    requires i < |g| && KindOf(g[i].role) == k && j < |g[i].parents|
    ensures g[i].parents[j] in Recorded(g, k)
  {
    var ts := Find(g, k);
    FindComplete(g, k, i);
    var t :| 0 <= t < |ts| && ts[t] == i;
    assert g[i].parents[j] in Adjacency(g)[ts[t]];
    ParentsOfMembers(Adjacency(g), ts, g[i].parents[j]);
  }

  /** Pass 1 for the user's stages: a stage that read an item sampler reads its sharding stage. */
  lemma BuildItemSamplerReaders(datapipe: Graph, terminal: Id, cfg: Config, cudaAvailable: bool, s: Stream, i: Id, j: nat)
    requires WellFormed(datapipe) && terminal < |datapipe|
    requires i < |datapipe| && j < |datapipe[i].parents| && KindOf(datapipe[datapipe[i].parents[j]].role) == ItemSamplerKind
    ensures ReadsWrapper(Build(datapipe, terminal, cfg, cudaAvailable, s), i, j, |datapipe|, ShardingFilter)
  {
    assert Rooted(datapipe, terminal)[i] == datapipe[i];
    BuildRedirects(datapipe, terminal, cfg, cudaAvailable, s, i, j);
  }

  /**
   * Pass 2 for a feature fetcher: it reads its parent through a `MultiprocessingWrapper`
   * configured from the options, unless that parent is an item sampler, whose sharding stage
   * pass 1 already put in between.
   */
  lemma BuildFeatureFetcherReads(datapipe: Graph, terminal: Id, cfg: Config, cudaAvailable: bool, s: Stream, i: Id, j: nat)
    requires WellFormed(datapipe) && terminal < |datapipe|
    requires i < |datapipe| && KindOf(datapipe[i].role) == FeatureFetcherKind && j < |datapipe[i].parents|
    ensures KindOf(datapipe[datapipe[i].parents[j]].role) == ItemSamplerKind ==>
              ReadsWrapper(Build(datapipe, terminal, cfg, cudaAvailable, s), i, j, |datapipe|, ShardingFilter)
    ensures KindOf(datapipe[datapipe[i].parents[j]].role) != ItemSamplerKind ==>
              ReadsWrapper(Build(datapipe, terminal, cfg, cudaAvailable, s), i, j, |datapipe|, OffloadRole(cfg))
  {
    assert Rooted(datapipe, terminal)[i] == datapipe[i];
    RecordedParent(datapipe, FeatureFetcherKind, i, j);
    BuildRedirects(datapipe, terminal, cfg, cudaAvailable, s, i, j);
  }

  /**
   * Pass 3 for the end marker added on top: when overlap is on it reads the terminal stage
   * through a `Bufferer(2)`, unless an earlier pass already wrapped the terminal stage.
   */
  lemma BuildEndMarkerReads(datapipe: Graph, terminal: Id, cfg: Config, cudaAvailable: bool, s: Stream)
    requires WellFormed(datapipe) && terminal < |datapipe|
    ensures OverlapEnabled(cfg, cudaAvailable) && KindOf(datapipe[terminal].role) != ItemSamplerKind
            && terminal !in Recorded(datapipe, FeatureFetcherKind) ==>
              ReadsWrapper(Build(datapipe, terminal, cfg, cudaAvailable, s), |datapipe|, 0, |datapipe|, Bufferer(OverlapBufferSize))
    ensures !OverlapEnabled(cfg, cudaAvailable) && KindOf(datapipe[terminal].role) != ItemSamplerKind
            && terminal !in Recorded(datapipe, FeatureFetcherKind) && terminal !in Recorded(datapipe, CopyToKind) ==>
              Build(datapipe, terminal, cfg, cudaAvailable, s)[|datapipe|].parents == [terminal]
  {
    BuildRedirects(datapipe, terminal, cfg, cudaAvailable, s, |datapipe|, 0);
  }

  /**
   * Pass 4 for a copy stage: it reads its parent through a `Prefetcher(2)` unless an earlier
   * pass already put its own wrapper in between; either way it reads a new wrapper.
   */
  lemma BuildCopyToReads(datapipe: Graph, terminal: Id, cfg: Config, cudaAvailable: bool, s: Stream, i: Id, j: nat)
    requires WellFormed(datapipe) && terminal < |datapipe|
    requires i < |datapipe| && KindOf(datapipe[i].role) == CopyToKind && j < |datapipe[i].parents|
    ensures RedirectedTo(datapipe, terminal, cfg, cudaAvailable, datapipe[i].parents[j]).Some?
    ensures ReadsWrapper(Build(datapipe, terminal, cfg, cudaAvailable, s), i, j, |datapipe|,
              RedirectedTo(datapipe, terminal, cfg, cudaAvailable, datapipe[i].parents[j]).value)
    ensures KindOf(datapipe[datapipe[i].parents[j]].role) != ItemSamplerKind
            && datapipe[i].parents[j] !in Recorded(datapipe, FeatureFetcherKind)
            && !(OverlapEnabled(cfg, cudaAvailable)
                 && (datapipe[i].parents[j] in Recorded(datapipe, EndMarkerKind) || datapipe[i].parents[j] == terminal)) ==>
              ReadsWrapper(Build(datapipe, terminal, cfg, cudaAvailable, s), i, j, |datapipe|, Prefetcher(PrefetchBufferSize))
  {
    assert Rooted(datapipe, terminal)[i] == datapipe[i];
    var p := datapipe[i].parents[j];
    RecordedParent(datapipe, CopyToKind, i, j);
    BuildRedirects(datapipe, terminal, cfg, cudaAvailable, s, i, j);
    var target := RedirectedTo(datapipe, terminal, cfg, cudaAvailable, p);
    assert target.Some?;
    assert ReadsWrapper(Build(datapipe, terminal, cfg, cudaAvailable, s), i, j, |datapipe|, target.value);
  }
}
