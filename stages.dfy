/**
 * The two pass-through stages of the data loader: `EndMarker`, which marks the
 * root of the pipeline and yields its input unchanged, and `Awaiter`, which
 * calls `wait()` on every item before yielding it.
 *
 * A stage is modelled by what one full pass over it yields, given what its
 * upstream stage yields.
 */
module Stages {

  /** An item that may carry an asynchronous copy; `ready` records whether `wait()` has completed it. */
  datatype Item<T> = Item(value: T, ready: bool)

  /** `wait()` on an item: blocks until its copy is complete; afterwards the item is ready. */
  function Wait<T>(x: Item<T>): (r: Item<T>)
    ensures r.value == x.value && r.ready
  {
    x.(ready := true)
  }

  /** What an `Awaiter` yields over a whole input: every item, waited on, in order. */
  function Awaited<T>(xs: seq<Item<T>>): (r: seq<Item<T>>)
    ensures |r| == |xs|
    ensures forall i :: 0 <= i < |xs| ==> r[i].value == xs[i].value && r[i].ready
    decreases |xs|
  {
    if xs == [] then [] else Awaited(xs[..|xs| - 1]) + [Wait(xs[|xs| - 1])]
  }

  /** Waiting twice is waiting once: an `Awaiter` over an already awaited stream changes nothing. */
  lemma {:induction false} AwaitedIdempotent<T>(xs: seq<Item<T>>)
    ensures Awaited(Awaited(xs)) == Awaited(xs)
  {
    var a := Awaited(xs);
    var aa := Awaited(a);
    assert |aa| == |a|;
    forall i | 0 <= i < |a|
      ensures aa[i] == a[i]
    {
      assert aa[i].value == a[i].value && aa[i].ready && a[i].ready;
    }
  }

  /** `EndMarker.__iter__`: yields every item of its upstream, unchanged and in order. */
  method EndMarkerIterate<T>(upstream: seq<T>) returns (yielded: seq<T>)
    ensures yielded == upstream
  {
    yielded := [];
    for k := 0 to |upstream|
      invariant yielded == upstream[..k]
    {
      yielded := yielded + [upstream[k]];
    }
  }

  /**
   * `Awaiter.__iter__`: for each upstream item, in order, calls `wait()` on it and then
   * yields it, so that every yielded item is ready at the moment it is yielded. The call
   * is unconditional: there is no item without a handle.
   */
  method AwaiterIterate<T>(upstream: seq<Item<T>>) returns (yielded: seq<Item<T>>)
    ensures yielded == Awaited(upstream)
    ensures forall i :: 0 <= i < |upstream| ==> yielded[i] == Wait(upstream[i])
  {
    yielded := [];
    for k := 0 to |upstream|
      invariant yielded == Awaited(upstream[..k])
      invariant forall i :: 0 <= i < k ==> yielded[i] == Wait(upstream[i])
    {
      var data := Wait(upstream[k]);
      assert upstream[..k + 1][..k] == upstream[..k];
      yielded := yielded + [data];
    }
    assert upstream[..|upstream|] == upstream;
  }
}
