/**
 * The live pipeline and the rewrite that wraps the parents of every stage of a
 * given kind (`_find_and_wrap_parent`). The live pipeline is an object whose arena
 * each rewrite updates in place; the graph snapshot and the adjacency a rewrite
 * reads are values computed earlier, which may no longer describe the live pipeline.
 */
module Rewrite {
  import opened Wrappers
  import opened PipelineGraph

  /** The live pipeline: the arena that the rewrites mutate. */
  class Pipeline {
    var stages: Graph

    constructor(stages: Graph)
      ensures this.stages == stages
    {
      this.stages := stages;
    }

    /** `dp_utils.traverse_dps`: a snapshot of the live pipeline. */
    function Snapshot(): (g: Graph)
      reads this
      ensures g == stages
    {
      stages
    }

    /** Constructing a wrapper around `parent`: a new stage whose only upstream is `parent`. */
    method Add(role: Role, parent: Id) returns (id: Id)
      modifies this
      ensures id == |old(stages)|
      ensures stages == old(stages) + [Stage(role, [parent], None)]
    {
      id := |stages|;
      stages := stages + [Stage(role, [parent], None)];
    }

    /** `dp_utils.replace_dp(graph, from, to)`: every stage other than `to` that referenced `from` now references `to`. */
    method Replace(from: Id, to: Id)
      modifies this
      ensures |stages| == |old(stages)|
      ensures forall i :: 0 <= i < |stages| && i != to ==>
                stages[i] == old(stages)[i].(parents := Substitute(old(stages)[i].parents, from, to))
      ensures to < |stages| ==> stages[to] == old(stages)[to]
    {
      var s := stages;
      stages := seq(|s|, i requires 0 <= i < |s| =>
        if i == to then s[i] else s[i].(parents := Substitute(s[i].parents, from, to)));
    }

    /** `replace_dp(graph, parent, wrapper(parent))`, as the rewrites call it. */
    method WrapParent(parent: Id, role: Role) returns (wrapper: Id)
      requires parent < |stages|
      modifies this
      ensures wrapper == |old(stages)|
      ensures stages == Wrapped(old(stages), parent, role)
    {
      wrapper := Add(role, parent);
      Replace(parent, wrapper);
    }

    /** `feature_fetcher.stream = stream` */
    method SetStream(id: Id, stream: Stream)
      requires id < |stages|
      modifies this
      ensures stages == old(stages)[id := old(stages)[id].(stream := Some(stream))]
    {
      stages := stages[id := stages[id].(stream := Some(stream))];
    }
  }

  /**
   * `_find_and_wrap_parent(snapshot, adj, k, wrapper)`: for every stage of kind `k` in
   * `snapshot`, and for every parent `adj` records for it, the parent is wrapped in the
   * live pipeline. Neither `snapshot` nor `adj` is updated as the pipeline changes, and
   * nothing is returned: the rebinding of the graph inside the loop stays local.
   */
  method FindAndWrapParent(pipeline: Pipeline, snapshot: Graph, adj: seq<seq<Id>>, k: Kind, role: Role)
    requires Covers(adj, snapshot, k)
    requires AdjacencyWithin(adj, |pipeline.stages|)
    modifies pipeline
    ensures pipeline.stages == WrapParents(old(pipeline.stages), snapshot, adj, k, role)
  {
    ParentsOfWithin(adj, Find(snapshot, k), |pipeline.stages|);
    ghost var live := pipeline.stages;
    ghost var wrapped: seq<Id> := [];
    var datapipes := Find(snapshot, k);
    for n := 0 to |datapipes|
      invariant wrapped == ParentsOf(adj, datapipes[..n])
      invariant forall j :: 0 <= j < |wrapped| ==> wrapped[j] < |live|
      invariant pipeline.stages == WrapEach(live, wrapped, role)
    {
      ParentsOfNext(adj, datapipes, n, |live|);
      WrapEachParent(pipeline, adj[datapipes[n]], role, live, wrapped);
      wrapped := wrapped + adj[datapipes[n]];
    }
    assert datapipes[..|datapipes|] == datapipes;
  }

  /**
   * The inner loop of `_find_and_wrap_parent`: each parent in `parents` is wrapped in turn,
   * so the pipeline goes from `live` with `done` wrapped to `live` with `done + parents` wrapped.
   */
  method WrapEachParent(pipeline: Pipeline, parents: seq<Id>, role: Role, ghost live: Graph, ghost done: seq<Id>)
    requires forall j :: 0 <= j < |done| ==> done[j] < |live|
    requires forall j :: 0 <= j < |parents| ==> parents[j] < |live|
    requires pipeline.stages == WrapEach(live, done, role)
    modifies pipeline
    ensures pipeline.stages == WrapEach(live, done + parents, role)
  {
    ghost var wrapped := done;
    for m := 0 to |parents|
      invariant wrapped == done + parents[..m]
      invariant forall j :: 0 <= j < |wrapped| ==> wrapped[j] < |live|
      invariant pipeline.stages == WrapEach(live, wrapped, role)
    {
      WrapEachNext(live, wrapped, parents[m], role);
      var _ := pipeline.WrapParent(parents[m], role);
      AppendNext(done, parents, m);
      wrapped := wrapped + [parents[m]];
    }
    assert parents[..|parents|] == parents;
  }

  lemma ParentsOfNext(adj: seq<seq<Id>>, ts: seq<Id>, n: nat, size: nat)
    requires n < |ts| && forall j :: 0 <= j < |ts| ==> ts[j] < |adj|
    requires AdjacencyWithin(adj, size)
    ensures ParentsOf(adj, ts[..n + 1]) == ParentsOf(adj, ts[..n]) + adj[ts[n]]
    ensures forall j :: 0 <= j < |adj[ts[n]]| ==> adj[ts[n]][j] < size
  {
    assert ts[..n + 1][..n] == ts[..n];
  }

  lemma AppendNext(done: seq<Id>, ps: seq<Id>, m: nat)
    requires m < |ps|
    ensures done + ps[..m + 1] == (done + ps[..m]) + [ps[m]]
  {
    assert ps[..m + 1] == ps[..m] + [ps[m]];
  }

  lemma WrapEachNext(g: Graph, ps: seq<Id>, x: Id, role: Role)
    requires x < |g| && forall j :: 0 <= j < |ps| ==> ps[j] < |g|
    ensures WrapEach(g, ps + [x], role) == Wrapped(WrapEach(g, ps, role), x, role)
  {
    assert (ps + [x])[..|ps|] == ps;
  }
}
