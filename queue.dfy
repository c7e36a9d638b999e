/**
 * The producer end of the single-producer single-consumer element queue
 * (heapless `spsc::Producer`): a bounded FIFO whose enqueue fails when full.
 */
module Queue {
  import opened Wrappers

  class BoundedQueue<T> {
    const capacity: nat
    var items: seq<T>

    constructor (capacity: nat)
      ensures this.capacity == capacity && items == []
    {
      this.capacity := capacity;
      items := [];
    }

    function HasRoom(): bool
      reads this
    {
      |items| < capacity
    }

    /** Appends `e`, or hands it back when the queue is full. */
    method Enqueue(e: T) returns (r: Result<Unit, T>)
      modifies this
      ensures old(HasRoom()) ==> r == Ok(Unit) && items == old(items) + [e]
      ensures !old(HasRoom()) ==> r == Err(e) && items == old(items)
    {
      if |items| < capacity {
        items := items + [e];
        r := Ok(Unit);
      } else {
        r := Err(e);
      }
    }

    /** The consumer end: removes the oldest element. */
    method Dequeue() returns (r: Option<T>)
      modifies this
      ensures old(items) == [] ==> r.None? && items == []
      ensures old(items) != [] ==> r == Some(old(items)[0]) && items == old(items)[1..]
    {
      if items == [] {
        r := None;
      } else {
        r := Some(items[0]);
        items := items[1..];
      }
    }
  }

  /**
   * Elements come out in the order they went in: enqueueing `xs` into an
   * empty queue with room for all of them, then dequeueing as many times,
   * gives back `xs` and leaves the queue empty.
   */
  method FifoOrder<T>(q: BoundedQueue<T>, xs: seq<T>) returns (out: seq<Option<T>>)
    requires q.items == [] && q.capacity >= |xs|
    modifies q
    ensures |out| == |xs| && forall i :: 0 <= i < |xs| ==> out[i] == Some(xs[i])
    ensures q.items == []
  {
    var n := 0;
    while n < |xs|
      invariant 0 <= n <= |xs|
      invariant q.items == xs[..n]
    {
      var _ := q.Enqueue(xs[n]);
      assert xs[..n + 1] == xs[..n] + [xs[n]];
      n := n + 1;
    }
    out := [];
    while |out| < |xs|
      invariant |out| <= |xs|
      invariant q.items == xs[|out|..]
      invariant forall i :: 0 <= i < |out| ==> out[i] == Some(xs[i])
    {
      var r := q.Dequeue();
      out := out + [r];
    }
  }
}
