/**
 * The pipeline graph as an arena of stages. A stage's identity is its index in
 * the arena; each stage records its role and the ids of its upstream (parent)
 * stages. Wrapping a parent adds a new stage whose only parent is the original
 * one and makes every other stage that referenced the parent reference the
 * wrapper instead.
 */
module PipelineGraph {
  import opened Wrappers

  type Id = nat

  /** An opaque handle to a device execution stream. */
  datatype Stream = Stream(handle: nat)

  /** The role tag of a stage, with the parameters a wrapper is constructed with. */
  datatype Role =
    | ItemSampler
    | FeatureFetcher
    | CopyTo
    | EndMarker
    | ShardingFilter
    | MultiprocessingWrapper(numWorkers: int, persistentWorkers: bool)
    | Bufferer(bufferSize: nat)
    | Awaiter
    | Prefetcher(bufferSize: nat)
    | Other(name: string)

  /** The class a stage is matched by when a pass looks stages up. */
  datatype Kind =
    | ItemSamplerKind | FeatureFetcherKind | CopyToKind | EndMarkerKind | ShardingFilterKind
    | MultiprocessingWrapperKind | BuffererKind | AwaiterKind | PrefetcherKind | OtherKind

  function KindOf(r: Role): Kind
  {
    match r
    case ItemSampler => ItemSamplerKind
    case FeatureFetcher => FeatureFetcherKind
    case CopyTo => CopyToKind
    case EndMarker => EndMarkerKind
    case ShardingFilter => ShardingFilterKind
    case MultiprocessingWrapper(_, _) => MultiprocessingWrapperKind
    case Bufferer(_) => BuffererKind
    case Awaiter => AwaiterKind
    case Prefetcher(_) => PrefetcherKind
    case Other(_) => OtherKind
  }

  /** A stage: its role, its parents and the stream attribute a feature fetcher may be given. */
  datatype Stage = Stage(role: Role, parents: seq<Id>, stream: Option<Stream>)

  type Graph = seq<Stage>

  /** Every parent id names a stage of the arena. */
  ghost predicate WellFormed(g: Graph)
  {
    forall i, j :: 0 <= i < |g| && 0 <= j < |g[i].parents| ==> g[i].parents[j] < |g|
  }

  /** `rank` is a topological ranking of `g`: every parent ranks strictly below its child. */
  ghost predicate RankedBy(g: Graph, rank: seq<nat>)
  {
    && |rank| == |g|
    && forall i, j :: 0 <= i < |g| && 0 <= j < |g[i].parents| ==>
         g[i].parents[j] < |g| && rank[g[i].parents[j]] < rank[i]
  }

  /** The graph is a DAG: it has a topological ranking. */
  ghost predicate Acyclic(g: Graph)
  {
    exists rank :: RankedBy(g, rank)
  }

  /** The stages that list `x` among their parents. */
  function Children(g: Graph, x: Id): set<Id>
  {
    set c | 0 <= c < |g| && x in g[c].parents
  }

  /** The parent list `ps` with every occurrence of `from` replaced by `to`. */
  function Substitute(ps: seq<Id>, from: Id, to: Id): (r: seq<Id>)
    ensures |r| == |ps|
    ensures forall j :: 0 <= j < |ps| ==> r[j] == (if ps[j] == from then to else ps[j])
  {
    seq(|ps|, j requires 0 <= j < |ps| => if ps[j] == from then to else ps[j])
  }

  /**
   * After the substitution `from` no longer occurs (unless it is its own replacement), and an
   * id occurs exactly when it occurred before and is not `from`, or it is `to` and `from` occurred.
   */
  lemma SubstituteMembers(ps: seq<Id>, from: Id, to: Id, x: Id)
    ensures from != to ==> from !in Substitute(ps, from, to)
    ensures x in Substitute(ps, from, to) <==> (x in ps && x != from) || (x == to && from in ps)
  {
    var r := Substitute(ps, from, to);
    if x in r {
      var j :| 0 <= j < |r| && r[j] == x;
      assert ps[j] in ps;
    }
    if x in ps && x != from {
      var j :| 0 <= j < |ps| && ps[j] == x;
      assert r[j] == x;
    }
    if x == to && from in ps {
      var j :| 0 <= j < |ps| && ps[j] == from;
      assert r[j] == x;
    }
  }

  /**
   * `replace_dp(graph, p, wrapper(p))`: the wrapper gets the next id and `p` as its only
   * parent, and every other stage that referenced `p` now references the wrapper.
   */
  function Wrapped(g: Graph, p: Id, role: Role): (r: Graph)
    requires p < |g|
    ensures |r| == |g| + 1
    ensures r[|g|] == Stage(role, [p], None)
  {
    seq(|g|, i requires 0 <= i < |g| => g[i].(parents := Substitute(g[i].parents, p, |g|)))
      + [Stage(role, [p], None)]
  }

  /** Wrapping every id of `ps` in turn, each with its own new stage of role `role`. */
  function WrapEach(g: Graph, ps: seq<Id>, role: Role): (r: Graph)
    requires forall k :: 0 <= k < |ps| ==> ps[k] < |g|
    ensures |r| == |g| + |ps|
    decreases |ps|
  {
    if ps == [] then g
    else Wrapped(WrapEach(g, ps[..|ps| - 1], role), ps[|ps| - 1], role)
  }

  /** `find_dps(graph, kind)`: the ids of all stages of that kind, in increasing order. */
  function Find(g: Graph, k: Kind): (r: seq<Id>)
    ensures forall j :: 0 <= j < |r| ==> r[j] < |g| && KindOf(g[r[j]].role) == k
    decreases |g|
  {
    if g == [] then []
    else Find(g[..|g| - 1], k) + (if KindOf(g[|g| - 1].role) == k then [|g| - 1] else [])
  }

  /** `Find` misses no stage of the kind it looks for. */
  lemma {:induction false} FindComplete(g: Graph, k: Kind, i: Id)
    requires i < |g| && KindOf(g[i].role) == k
    ensures i in Find(g, k)
    decreases |g|
  {
    if i < |g| - 1 {
      FindComplete(g[..|g| - 1], k, i);
    }
  }

  /** `datapipe_graph_to_adjlist(graph)`: for every stage id, the ids of its parents. */
  function Adjacency(g: Graph): (adj: seq<seq<Id>>)
    ensures |adj| == |g|
    ensures forall i :: 0 <= i < |g| ==> adj[i] == g[i].parents
  {
    seq(|g|, i requires 0 <= i < |g| => g[i].parents)
  }

  /** The parent ids that `adj` records for the stages `ts`, in order (duplicates kept). */
  function ParentsOf(adj: seq<seq<Id>>, ts: seq<Id>): (r: seq<Id>)
    requires forall j :: 0 <= j < |ts| ==> ts[j] < |adj|
    decreases |ts|
  {
    if ts == [] then []
    else ParentsOf(adj, ts[..|ts| - 1]) + adj[ts[|ts| - 1]]
  }

  /** An id is among the recorded parents exactly when `adj` records it for one of the stages `ts`. */
  lemma {:induction false} ParentsOfMembers(adj: seq<seq<Id>>, ts: seq<Id>, x: Id)
    requires forall j :: 0 <= j < |ts| ==> ts[j] < |adj|
    ensures x in ParentsOf(adj, ts) <==> exists j :: 0 <= j < |ts| && x in adj[ts[j]]
    decreases |ts|
  {
    if ts != [] {
      var init := ts[..|ts| - 1];
      ParentsOfMembers(adj, init, x);
      if x in ParentsOf(adj, ts) && x !in adj[ts[|ts| - 1]] {
        var j :| 0 <= j < |init| && x in adj[init[j]];
        assert x in adj[ts[j]];
      }
      if exists j :: 0 <= j < |ts| && x in adj[ts[j]] {
        var j :| 0 <= j < |ts| && x in adj[ts[j]];
        if j < |init| {
          assert x in adj[init[j]];
        }
      }
    }
  }

  /** Every id recorded in `adj` names a stage of a graph with `n` stages. */
  ghost predicate AdjacencyWithin(adj: seq<seq<Id>>, n: nat)
  {
    forall i, j :: 0 <= i < |adj| && 0 <= j < |adj[i]| ==> adj[i][j] < n
  }

  lemma AdjacencyWithinGrows(adj: seq<seq<Id>>, n: nat, m: nat)
    requires AdjacencyWithin(adj, n) && n <= m
    ensures AdjacencyWithin(adj, m)
  {
  }

  /** Every stage of kind `k` in `snapshot` has an entry in `adj`. */
  ghost predicate Covers(adj: seq<seq<Id>>, snapshot: Graph, k: Kind)
  {
    forall j :: 0 <= j < |Find(snapshot, k)| ==> Find(snapshot, k)[j] < |adj|
  }

  lemma ParentsOfWithin(adj: seq<seq<Id>>, ts: seq<Id>, n: nat)
    requires forall j :: 0 <= j < |ts| ==> ts[j] < |adj|
    requires AdjacencyWithin(adj, n)
    ensures forall k :: 0 <= k < |ParentsOf(adj, ts)| ==> ParentsOf(adj, ts)[k] < n
  {
    var ps := ParentsOf(adj, ts);
    forall k | 0 <= k < |ps|
      ensures ps[k] < n
    {
      assert ps[k] in ps;
      ParentsOfMembers(adj, ts, ps[k]);
      var j :| 0 <= j < |ts| && ps[k] in adj[ts[j]];
      var m :| 0 <= m < |adj[ts[j]]| && adj[ts[j]][m] == ps[k];
    }
  }

  /**
   * `_find_and_wrap_parent(snapshot, adj, k, wrapper)` applied to the live graph `live`:
   * the stages of kind `k` are looked up in `snapshot`, their parents in `adj` (both of
   * which may be stale), and each recorded parent is wrapped in the live graph.
   */
  function WrapParents(live: Graph, snapshot: Graph, adj: seq<seq<Id>>, k: Kind, role: Role): (r: Graph)
    requires Covers(adj, snapshot, k) && AdjacencyWithin(adj, |live|)
    ensures |r| == |live| + |ParentsOf(adj, Find(snapshot, k))|
  {
    ParentsOfWithin(adj, Find(snapshot, k), |live|);
    WrapEach(live, ParentsOf(adj, Find(snapshot, k)), role)
  }

  /**
   * One `_find_and_wrap_parent` pass changes the live graph exactly when some parent is
   * recorded for the stages it looks up; with no stage of kind `k` it changes nothing.
   */
  lemma WrapParentsUnchanged(live: Graph, snapshot: Graph, adj: seq<seq<Id>>, k: Kind, role: Role)
    requires Covers(adj, snapshot, k) && AdjacencyWithin(adj, |live|)
    ensures WrapParents(live, snapshot, adj, k, role) == live <==> ParentsOf(adj, Find(snapshot, k)) == []
    ensures Find(snapshot, k) == [] ==> WrapParents(live, snapshot, adj, k, role) == live
  {
    if ParentsOf(adj, Find(snapshot, k)) == [] {
      assert WrapEach(live, [], role) == live;
    }
  }

  /**
   * What one wrap does to the edges: the wrapper `w` has exactly `p` as its parent; `p`'s
   * only child is now `w`; `w` has taken over all of `p`'s former children; every other
   * stage keeps its children, its role and its stream, and the graph stays well formed.
   */
  lemma WrappedEdges(g: Graph, p: Id, role: Role)
    requires WellFormed(g) && p < |g|
    ensures WellFormed(Wrapped(g, p, role))
    ensures Children(Wrapped(g, p, role), p) == {|g|}
    ensures Children(Wrapped(g, p, role), |g|) == Children(g, p)
    ensures forall x :: 0 <= x < |g| && x != p ==> Children(Wrapped(g, p, role), x) == Children(g, x)
    ensures forall i :: 0 <= i < |g| ==>
              Wrapped(g, p, role)[i].role == g[i].role && Wrapped(g, p, role)[i].stream == g[i].stream
  {
    var r, w := Wrapped(g, p, role), |g|;
    assert forall i :: 0 <= i < |g| ==> r[i].parents == Substitute(g[i].parents, p, w);
    forall c | 0 <= c < |g|
      ensures p !in r[c].parents
      ensures w in r[c].parents <==> p in g[c].parents
      ensures forall x :: x != p && x != w ==> (x in r[c].parents <==> x in g[c].parents)
    {
      var ps := g[c].parents;
      if w in r[c].parents {
        var j :| 0 <= j < |ps| && r[c].parents[j] == w;
        assert ps[j] == p;
      }
      if p in ps {
        var j :| 0 <= j < |ps| && ps[j] == p;
        assert r[c].parents[j] == w;
      }
      forall x | x != p && x != w
        ensures x in r[c].parents <==> x in ps
      {
        if x in ps {
          var j :| 0 <= j < |ps| && ps[j] == x;
          assert r[c].parents[j] == x;
        }
      }
    }
    assert Children(r, p) == {w};
    assert Children(r, w) == Children(g, p);
    forall x | 0 <= x < |g| && x != p
      ensures Children(r, x) == Children(g, x)
    {
      assert x !in r[w].parents;
    }
  }

  /** Wrapping keeps the graph a DAG. */
  lemma WrappedAcyclic(g: Graph, p: Id, role: Role)
    requires p < |g| && Acyclic(g)
    ensures Acyclic(Wrapped(g, p, role))
  {
    var rank :| RankedBy(g, rank);
    var r, w := Wrapped(g, p, role), |g|;
    var rank' := seq(|g|, i requires 0 <= i < |g| => 2 * rank[i]) + [2 * rank[p] + 1];
    forall i, j | 0 <= i < |r| && 0 <= j < |r[i].parents|
      ensures r[i].parents[j] < |r| && rank'[r[i].parents[j]] < rank'[i]
    {
      if i < w {
        assert r[i].parents[j] == if g[i].parents[j] == p then w else g[i].parents[j];
      }
    }
    assert RankedBy(r, rank');
  }

  /** `Find` only looks at roles. */
  lemma {:induction false} FindSameRoles(g: Graph, h: Graph, k: Kind)
    requires |g| == |h|
    requires forall i :: 0 <= i < |g| ==> g[i].role == h[i].role
    ensures Find(g, k) == Find(h, k)
    decreases |g|
  {
    if g != [] {
      FindSameRoles(g[..|g| - 1], h[..|h| - 1], k);
    }
  }

  /** The wrapper is found by a lookup of its own kind and by no other. */
  lemma FindWrapped(g: Graph, p: Id, role: Role, k: Kind)
    requires p < |g|
    ensures Find(Wrapped(g, p, role), k) == Find(g, k) + (if KindOf(role) == k then [|g|] else [])
  {
    var r := Wrapped(g, p, role);
    FindSameRoles(r[..|g|], g, k);
  }

  /**
   * Wrapping with a role of another kind leaves every lookup of kind `k` unchanged, so a
   * lookup in a stale snapshot finds the same stages as one in the live graph.
   */
  lemma {:induction false} FindWrapEachOther(g: Graph, ps: seq<Id>, role: Role, k: Kind)
    requires forall m :: 0 <= m < |ps| ==> ps[m] < |g|
    requires KindOf(role) != k
    ensures Find(WrapEach(g, ps, role), k) == Find(g, k)
    decreases |ps|
  {
    if ps != [] {
      var init := ps[..|ps| - 1];
      FindWrapEachOther(g, init, role, k);
      FindWrapped(WrapEach(g, init, role), ps[|ps| - 1], role, k);
    }
  }

  /** Wrapping `|ps|` parents with a role of kind `k` adds exactly `|ps|` stages of that kind. */
  lemma {:induction false} FindWrapEachSame(g: Graph, ps: seq<Id>, role: Role)
    requires forall m :: 0 <= m < |ps| ==> ps[m] < |g|
    ensures |Find(WrapEach(g, ps, role), KindOf(role))| == |Find(g, KindOf(role))| + |ps|
    decreases |ps|
  {
    if ps != [] {
      var init := ps[..|ps| - 1];
      FindWrapEachSame(g, init, role);
      FindWrapped(WrapEach(g, init, role), ps[|ps| - 1], role, KindOf(role));
    }
  }

  /**
   * Wrapping a sequence of parents keeps well-formedness and acyclicity, keeps every
   * existing stage's role and stream, and leaves alone the parent list of any stage
   * that references none of the wrapped ids.
   */
  lemma {:induction false} WrapEachKeeps(g: Graph, ps: seq<Id>, role: Role)
    requires forall m :: 0 <= m < |ps| ==> ps[m] < |g|
    ensures WellFormed(g) ==> WellFormed(WrapEach(g, ps, role))
    ensures Acyclic(g) ==> Acyclic(WrapEach(g, ps, role))
    ensures forall i :: 0 <= i < |g| ==>
              WrapEach(g, ps, role)[i].role == g[i].role && WrapEach(g, ps, role)[i].stream == g[i].stream
    ensures forall i :: 0 <= i < |g| && (forall q :: q in g[i].parents ==> q !in ps) ==>
              WrapEach(g, ps, role)[i].parents == g[i].parents
    decreases |ps|
  {
    if ps != [] {
      var init, last := ps[..|ps| - 1], ps[|ps| - 1];
      var h := WrapEach(g, init, role);
      WrapEachKeeps(g, init, role);
      if WellFormed(g) {
        WrappedEdges(h, last, role);
      }
      if Acyclic(g) {
        WrappedAcyclic(h, last, role);
      }
      forall i | 0 <= i < |g| && (forall q :: q in g[i].parents ==> q !in ps)
        ensures WrapEach(g, ps, role)[i].parents == g[i].parents
      {
        assert h[i].parents == g[i].parents;
        assert last !in g[i].parents;
      }
    }
  }

  /** Wrapping keeps a stage with no children childless, unless it is itself wrapped. */
  lemma {:induction false} WrapEachChildless(g: Graph, ps: seq<Id>, role: Role, x: Id)
    requires WellFormed(g) && x < |g| && Children(g, x) == {}
    requires forall m :: 0 <= m < |ps| ==> ps[m] < |g| && ps[m] != x
    ensures Children(WrapEach(g, ps, role), x) == {}
    decreases |ps|
  {
    if ps != [] {
      var init := ps[..|ps| - 1];
      WrapEachChildless(g, init, role, x);
      WrapEachKeeps(g, init, role);
      WrappedEdges(WrapEach(g, init, role), ps[|ps| - 1], role);
    }
  }

  /**
   * What one `_find_and_wrap_parent` pass does to the live graph: a DAG stays a DAG and a
   * well-formed graph stays well formed; every existing stage keeps its role and stream;
   * and a stage that references none of the recorded parents keeps its parent list.
   */
  lemma WrapParentsKeeps(live: Graph, snapshot: Graph, adj: seq<seq<Id>>, k: Kind, role: Role)
    requires Covers(adj, snapshot, k) && AdjacencyWithin(adj, |live|)
    ensures WellFormed(live) ==> WellFormed(WrapParents(live, snapshot, adj, k, role))
    ensures Acyclic(live) ==> Acyclic(WrapParents(live, snapshot, adj, k, role))
    ensures forall i :: 0 <= i < |live| ==>
              WrapParents(live, snapshot, adj, k, role)[i].role == live[i].role &&
              WrapParents(live, snapshot, adj, k, role)[i].stream == live[i].stream
    ensures forall i :: 0 <= i < |live| && (forall q :: q in live[i].parents ==> q !in ParentsOf(adj, Find(snapshot, k))) ==>
              WrapParents(live, snapshot, adj, k, role)[i].parents == live[i].parents
  {
    ParentsOfWithin(adj, Find(snapshot, k), |live|);
    WrapEachKeeps(live, ParentsOf(adj, Find(snapshot, k)), role);
  }

  /** One `_find_and_wrap_parent` pass leaves every lookup of a kind other than the wrapper's unchanged. */
  lemma FindWrapParentsOther(live: Graph, snapshot: Graph, adj: seq<seq<Id>>, k: Kind, role: Role, q: Kind)
    requires Covers(adj, snapshot, k) && AdjacencyWithin(adj, |live|)
    requires q != KindOf(role)
    ensures Find(WrapParents(live, snapshot, adj, k, role), q) == Find(live, q)
  {
    ParentsOfWithin(adj, Find(snapshot, k), |live|);
    FindWrapEachOther(live, ParentsOf(adj, Find(snapshot, k)), role, q);
  }

  /** One `_find_and_wrap_parent` pass adds one wrapper per recorded parent. */
  lemma FindWrapParentsSame(live: Graph, snapshot: Graph, adj: seq<seq<Id>>, k: Kind, role: Role)
    requires Covers(adj, snapshot, k) && AdjacencyWithin(adj, |live|)
    ensures |Find(WrapParents(live, snapshot, adj, k, role), KindOf(role))|
            == |Find(live, KindOf(role))| + |ParentsOf(adj, Find(snapshot, k))|
  {
    ParentsOfWithin(adj, Find(snapshot, k), |live|);
    FindWrapEachSame(live, ParentsOf(adj, Find(snapshot, k)), role);
  }

  /** A pass whose recorded parents all lie below `x` keeps a childless `x` childless. */
  lemma WrapParentsChildless(live: Graph, snapshot: Graph, adj: seq<seq<Id>>, k: Kind, role: Role, x: Id)
    requires Covers(adj, snapshot, k) && AdjacencyWithin(adj, x)
    requires WellFormed(live) && x < |live| && Children(live, x) == {}
    ensures Children(WrapParents(live, snapshot, adj, k, role), x) == {}
  {
    AdjacencyWithinGrows(adj, x, |live|);
    ParentsOfWithin(adj, Find(snapshot, k), x);
    WrapEachChildless(live, ParentsOf(adj, Find(snapshot, k)), role, x);
  }

  /** Wrapping a single recorded parent is one wrap. */
  lemma WrapEachOne(g: Graph, p: Id, role: Role)
    requires p < |g|
    ensures WrapEach(g, [p], role) == Wrapped(g, p, role)
  {
    assert [p][..0] == [];
  }

  /** A graph's own adjacency covers every lookup in it, and names only its stages when it is well formed. */
  lemma AdjacencyCovers(g: Graph, k: Kind)
    ensures Covers(Adjacency(g), g, k)
    ensures WellFormed(g) ==> AdjacencyWithin(Adjacency(g), |g|)
  {
  }

  /** An existing stage after a wrap: the same stage, reading from the wrapper instead of `p`. */
  lemma WrappedAt(g: Graph, p: Id, role: Role, i: Id)
    requires p < |g| && i < |g|
    ensures Wrapped(g, p, role)[i] == g[i].(parents := Substitute(g[i].parents, p, |g|))
  {
  }

  /** The position of the first occurrence of `p` in `ps`. */
  function FirstIndex(ps: seq<Id>, p: Id): (k: nat)
    requires p in ps
    ensures k < |ps| && ps[k] == p && p !in ps[..k]
  {
    if ps[0] == p then 0
    else
      assert ps == [ps[0]] + ps[1..];
      var k := FirstIndex(ps[1..], p);
      assert ps[..k + 1] == [ps[0]] + ps[1..][..k];
      k + 1
  }

  lemma FirstIndexUnique(ps: seq<Id>, p: Id, k: nat)
    requires k < |ps| && ps[k] == p && p !in ps[..k]
    ensures FirstIndex(ps, p) == k
  {
  }

  lemma FirstIndexSnoc(ps: seq<Id>, x: Id, p: Id)
    requires p in ps + [x]
    ensures p in ps ==> FirstIndex(ps + [x], p) == FirstIndex(ps, p)
    ensures p !in ps ==> FirstIndex(ps + [x], p) == |ps|
  {
    if p in ps {
      var f := FirstIndex(ps, p);
      assert (ps + [x])[..f] == ps[..f];
      FirstIndexUnique(ps + [x], p, f);
    } else {
      assert (ps + [x])[..|ps|] == ps;
      FirstIndexUnique(ps + [x], p, |ps|);
    }
  }

  /**
   * What wrapping the ids `ps` in turn does to the reference `j` of a stage `i` already there:
   * a reference to a wrapped id now points at the first wrapper made for that id, and any
   * other reference is left alone.
   */
  lemma {:induction false} WrapEachReader(g: Graph, ps: seq<Id>, role: Role, i: Id, j: nat)
    requires forall m :: 0 <= m < |ps| ==> ps[m] < |g|
    requires i < |g| && j < |g[i].parents|
    ensures |WrapEach(g, ps, role)[i].parents| == |g[i].parents|
    ensures g[i].parents[j] in ps ==> WrapEach(g, ps, role)[i].parents[j] == |g| + FirstIndex(ps, g[i].parents[j])
    ensures g[i].parents[j] !in ps ==> WrapEach(g, ps, role)[i].parents[j] == g[i].parents[j]
    decreases |ps|
  {
    if ps != [] {
      var init, x := ps[..|ps| - 1], ps[|ps| - 1];
      assert ps == init + [x];
      WrapEachReader(g, init, role, i, j);
      WrappedAt(WrapEach(g, init, role), x, role, i);
      if g[i].parents[j] in ps {
        FirstIndexSnoc(init, x, g[i].parents[j]);
      }
    }
  }

  /** A stage that reads only `q` reads the new wrapper after a wrap of `x` exactly when `q` is `x`. */
  lemma WrappedSoleParent(before: Graph, x: Id, role: Role, idx: Id, q: Id)
    requires x < |before| && idx < |before| && before[idx].parents == [q]
    ensures Wrapped(before, x, role)[idx].role == before[idx].role
    ensures Wrapped(before, x, role)[idx].stream == before[idx].stream
    ensures Wrapped(before, x, role)[idx].parents == [if q == x then |before| else q]
  {
    WrappedAt(before, x, role, idx);
    assert Substitute([q], x, |before|) == [if q == x then |before| else q];
  }

  /**
   * The `m`-th stage that wrapping the ids `ps` in turn adds has the wrapper's role, no stream
   * and a single parent.
   */
  lemma {:induction false} WrapEachWrapperRole(g: Graph, ps: seq<Id>, role: Role, m: nat)
    requires forall k :: 0 <= k < |ps| ==> ps[k] < |g|
    requires m < |ps|
    ensures WrapEach(g, ps, role)[|g| + m].role == role && WrapEach(g, ps, role)[|g| + m].stream == None
    ensures |WrapEach(g, ps, role)[|g| + m].parents| == 1
    decreases |ps|
  {
    var init, x := ps[..|ps| - 1], ps[|ps| - 1];
    assert ps == init + [x];
    if m < |init| {
      WrapEachWrapperRole(g, init, role, m);
      var before := WrapEach(g, init, role);
      WrappedSoleParent(before, x, role, |g| + m, before[|g| + m].parents[0]);
    }
  }

  /** The wrapper made for `ps[m]` reads `ps[m]` itself when `ps[m]` is not wrapped again later. */
  lemma {:induction false} WrapEachLastWrapper(g: Graph, ps: seq<Id>, role: Role, m: nat)
    requires forall k :: 0 <= k < |ps| ==> ps[k] < |g|
    requires m < |ps| && forall l :: m < l < |ps| ==> ps[l] != ps[m]
    ensures WrapEach(g, ps, role)[|g| + m].parents == [ps[m]]
    decreases |ps|
  {
    var init, x := ps[..|ps| - 1], ps[|ps| - 1];
    assert ps == init + [x];
    if m < |init| {
      WrapEachLastWrapper(g, init, role, m);
      WrappedSoleParent(WrapEach(g, init, role), x, role, |g| + m, ps[m]);
    }
  }

  /**
   * The wrapper made for `ps[m]` reads the wrapper made for the next occurrence `ps[n]` of the
   * same id, so repeated ids give a chain of wrappers ending at the id itself.
   */
  lemma {:induction false} WrapEachNextWrapper(g: Graph, ps: seq<Id>, role: Role, m: nat, n: nat)
    requires forall k :: 0 <= k < |ps| ==> ps[k] < |g|
    requires m < n < |ps| && ps[n] == ps[m] && forall l :: m < l < n ==> ps[l] != ps[m]
    ensures WrapEach(g, ps, role)[|g| + m].parents == [|g| + n]
    decreases |ps|
  {
    var init, x := ps[..|ps| - 1], ps[|ps| - 1];
    assert ps == init + [x];
    var before := WrapEach(g, init, role);
    assert WrapEach(g, ps, role) == Wrapped(before, x, role);
    assert x < |g| && |before| == |g| + |init|;
    if n == |init| {
      assert x == init[m];
      WrapEachLastWrapper(g, init, role, m);
      WrappedSoleParent(before, x, role, |g| + m, x);
    } else {
      assert init[n] == init[m];
      WrapEachNextWrapper(g, init, role, m, n);
      WrappedSoleParent(before, x, role, |g| + m, |g| + n);
    }
  }

  /**
   * The main effect of one `_find_and_wrap_parent` pass, for the reference `j` of an existing
   * stage `i`: if it read a recorded parent, it now reads a new stage of the wrapper's role
   * whose only parent is a recorded parent or another new stage; otherwise it is left alone.
   */
  lemma WrapParentsRedirect(live: Graph, snapshot: Graph, adj: seq<seq<Id>>, k: Kind, role: Role, i: Id, j: nat)
    requires Covers(adj, snapshot, k) && AdjacencyWithin(adj, |live|)
    requires i < |live| && j < |live[i].parents|
    ensures |WrapParents(live, snapshot, adj, k, role)[i].parents| == |live[i].parents|
    ensures live[i].parents[j] in ParentsOf(adj, Find(snapshot, k)) ==>
              |live| <= WrapParents(live, snapshot, adj, k, role)[i].parents[j] < |WrapParents(live, snapshot, adj, k, role)|
              && WrapParents(live, snapshot, adj, k, role)[WrapParents(live, snapshot, adj, k, role)[i].parents[j]].role == role
              && |WrapParents(live, snapshot, adj, k, role)[WrapParents(live, snapshot, adj, k, role)[i].parents[j]].parents| == 1
    ensures live[i].parents[j] !in ParentsOf(adj, Find(snapshot, k)) ==>
              WrapParents(live, snapshot, adj, k, role)[i].parents[j] == live[i].parents[j]
  {
    var ps := ParentsOf(adj, Find(snapshot, k));
    ParentsOfWithin(adj, Find(snapshot, k), |live|);
    WrapEachReader(live, ps, role, i, j);
    if live[i].parents[j] in ps {
      var m := FirstIndex(ps, live[i].parents[j]);
      WrapEachWrapperRole(live, ps, role, m);
    }
  }
}
