/**
 * `Bufferer`: a bounded FIFO look-ahead stage. It keeps a queue of capacity
 * `bufferSize`; while the queue is not full an upstream item is only enqueued,
 * and once it is full each upstream item pushes the oldest buffered item out
 * downstream. When the upstream is exhausted the queue is drained in order.
 */
module Buffering {
  import opened Wrappers

  /** The construction-time error of the source (`ValueError`). */
  datatype ConfigError = ValueError(message: string)

  /** The check made when a `Bufferer` is constructed: the size must be a positive integer. */
  function CheckBufferSize(bufferSize: int): (r: Result<nat, ConfigError>)
    ensures r.Success? <==> bufferSize > 0
    ensures r.Success? ==> r.value == bufferSize
  {
    if bufferSize <= 0 then
      Result<nat, ConfigError>.Failure(ValueError("'buffer_size' is required to be a positive integer."))
    else Success(bufferSize)
  }

  /** The items an optional yield puts downstream: none or one. */
  function Emitted<T>(y: Option<T>): (r: seq<T>)
    ensures |r| <= 1
    ensures y.Some? ==> r == [y.value]
  {
    if y.Some? then [y.value] else []
  }

  /**
   * One upstream item `x` reaching a bufferer of capacity `size` whose queue holds `queue`:
   * what it yields and what its queue holds afterwards.
   */
  function Step<T>(size: nat, queue: seq<T>, x: T): (r: (Option<T>, seq<T>))
    requires 0 < size && |queue| <= size
    ensures r.0.Some? <==> |queue| == size
    ensures r.0.Some? ==> r.0.value == queue[0]
    ensures Emitted(r.0) + r.1 == queue + [x]
    ensures |r.1| <= size
  {
    if |queue| < size then (None, queue + [x])
    else (Some(queue[0]), queue[1..] + [x])
  }

  /**
   * The first loop of a pass over `xs`, starting from `queue`: everything yielded while
   * pulling and what is left in the queue at upstream exhaustion. Nothing is lost,
   * duplicated or reordered, and the queue stays within its capacity.
   */
  function Run<T>(size: nat, queue: seq<T>, xs: seq<T>): (r: (seq<T>, seq<T>))
    requires 0 < size && |queue| <= size
    ensures r.0 + r.1 == queue + xs
    ensures |r.1| <= size
    decreases |xs|
  {
    if xs == [] then ([], queue)
    else
      var init, last := xs[..|xs| - 1], xs[|xs| - 1];
      var before := Run(size, queue, init);
      var after := Step(size, before.1, last);
      var emitted := Emitted(after.0);
      assert emitted + after.1 == before.1 + [last];
      assert (before.0 + emitted) + after.1 == before.0 + (emitted + after.1);
      assert (before.0 + before.1) + [last] == queue + (init + [last]);
      assert init + [last] == xs;
      (before.0 + emitted, after.1)
  }

  /** One more upstream item is one more `Step` after the run over the items before it. */
  lemma RunSnoc<T>(size: nat, queue: seq<T>, xs: seq<T>, x: T)
    requires 0 < size && |queue| <= size
    ensures Run(size, queue, xs + [x])
            == (Run(size, queue, xs).0 + Emitted(Step(size, Run(size, queue, xs).1, x).0),
                Step(size, Run(size, queue, xs).1, x).1)
  {
    assert (xs + [x])[..|xs|] == xs;
  }

  /** The queue keeps the last `size` items pulled (all of them while there are fewer). */
  lemma {:induction false} RunQueueLength<T>(size: nat, queue: seq<T>, xs: seq<T>)
    requires 0 < size && |queue| <= size
    ensures |Run(size, queue, xs).1| == if |queue| + |xs| <= size then |queue| + |xs| else size
    decreases |xs|
  {
    if xs != [] {
      RunQueueLength(size, queue, xs[..|xs| - 1]);
    }
  }

  /**
   * The lag of a bufferer that starts empty: after pulling `k = |xs|` items nothing has
   * been yielded if `k <= size`; otherwise exactly the first `k - size` items have been
   * yielded, in order, and the last `size` items are the ones still buffered.
   */
  lemma BuffererLag<T>(size: nat, xs: seq<T>)
    requires 0 < size
    ensures |xs| <= size ==> Run(size, [], xs) == ([], xs)
    ensures |xs| > size ==> Run(size, [], xs) == (xs[..|xs| - size], xs[|xs| - size..])
  {
    var (yielded, q) := Run(size, [], xs);
    RunQueueLength(size, [], xs);
    assert yielded + q == xs;
    assert yielded == xs[..|yielded|] && q == xs[|yielded|..];
  }

  /** A `Bufferer` stage: its queue is a field that every pull updates in place. */
  class Bufferer<T> {
    const bufferSize: nat
    var buffer: seq<T>

    ghost predicate Valid()
      reads this
    {
      0 < bufferSize && |buffer| <= bufferSize
    }

    constructor(bufferSize: nat)
      requires 0 < bufferSize
      ensures Valid() && this.bufferSize == bufferSize && buffer == []
    {
      this.bufferSize := bufferSize;
      buffer := [];
    }

    /** `Bufferer(datapipe, buffer_size)`: fails with `ValueError` exactly when the size is not positive. */
    static method Create(bufferSize: int) returns (r: Result<Bufferer<T>, ConfigError>)
      ensures r.Failure? <==> bufferSize <= 0
      ensures r.Success? ==> fresh(r.value) && r.value.Valid()
      ensures r.Success? ==> r.value.bufferSize == bufferSize && r.value.buffer == []
    {
      var checked := CheckBufferSize(bufferSize);
      if checked.Failure? {
        return Failure(checked.error);
      }
      var b := new Bufferer(checked.value);
      return Success(b);
    }

    /** `self.buffer.full()` */
    predicate Full(): (r: bool)
      reads this
      ensures Valid() && r ==> |buffer| > 0
      ensures Valid() && !r ==> |buffer| < bufferSize
    {
      |buffer| == bufferSize
    }

    /** One iteration of the pulling loop: enqueue, or dequeue the oldest, enqueue and yield it. */
    method Pull(data: T) returns (yielded: Option<T>)
      requires Valid()
      modifies this
      ensures Valid()
      ensures (yielded, buffer) == Step(bufferSize, old(buffer), data)
    {
      if !Full() {
        buffer := buffer + [data];
        yielded := None;
      } else {
        var returnData := buffer[0];
        buffer := buffer[1..];
        buffer := buffer + [data];
        yielded := Some(returnData);
      }
    }

    /**
     * The pulling loop of `Bufferer.__iter__`: every upstream item is pulled in turn; what
     * is yielded and what stays buffered are those of `Run`.
     */
    method PullAll(upstream: seq<T>) returns (yielded: seq<T>)
      requires Valid()
      modifies this
      ensures Valid()
      ensures (yielded, buffer) == Run(bufferSize, old(buffer), upstream)
    {
      ghost var initial := buffer;
      yielded := [];
      for k := 0 to |upstream|
        invariant Valid()
        invariant (yielded, buffer) == Run(bufferSize, initial, upstream[..k])
      {
        RunSnoc(bufferSize, initial, upstream[..k], upstream[k]);
        assert upstream[..k] + [upstream[k]] == upstream[..k + 1];
        var y := Pull(upstream[k]);
        yielded := yielded + Emitted(y);
      }
      assert upstream[..|upstream|] == upstream;
    }

    /** The draining loop of `Bufferer.__iter__`: the buffered items are yielded oldest first. */
    method Drain() returns (yielded: seq<T>)
      requires Valid()
      modifies this
      ensures Valid()
      ensures yielded == old(buffer) && buffer == []
    {
      yielded := [];
      while buffer != []
        invariant Valid()
        invariant yielded + buffer == old(buffer)
        decreases |buffer|
      {
        var head := buffer[0];
        buffer := buffer[1..];
        yielded := yielded + [head];
      }
    }

    /**
     * `Bufferer.__iter__` over an upstream that yields `upstream`: a full pass yields
     * whatever was left buffered followed by the whole upstream, in order, and leaves the
     * queue empty, so a following full pass behaves like the first.
     */
    method Iterate(upstream: seq<T>) returns (yielded: seq<T>)
      requires Valid()
      modifies this
      ensures Valid()
      ensures yielded == old(buffer) + upstream
      ensures buffer == []
    {
      var pulled := PullAll(upstream);
      var drained := Drain();
      yielded := pulled + drained;
    }
  }
}
