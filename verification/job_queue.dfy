/** The job channel `make(chan Job, MaxQueueSize)`: a bounded FIFO. A send on
    a full channel blocks its sender; a receive on an empty one blocks its
    receiver. Both are modelled as a step that is not enabled (`None`). */
module JobQueue {
  import opened Models

  const MaxQueueSize: nat := 5

  /** `jobQueue <- job`: appends at the tail, or cannot proceed when full. */
  function Enqueue<T>(q: seq<T>, x: T): (r: Option<seq<T>>)
    ensures r.Some? <==> |q| < MaxQueueSize
    ensures r.Some? ==> |r.value| == |q| + 1 && r.value[..|q|] == q && r.value[|q|] == x
  {
    if |q| < MaxQueueSize then Some(q + [x]) else None
  }

  /** `<-jobQueue`: takes the oldest element, or cannot proceed when empty. */
  function Dequeue<T>(q: seq<T>): (r: Option<(T, seq<T>)>)
    ensures r.Some? <==> |q| > 0
    ensures r.Some? ==> [r.value.0] + r.value.1 == q
  {
    if |q| == 0 then None else Some((q[0], q[1..]))
  }

  /** First in, first out: after an enqueue onto a non-empty queue the
      dequeue still yields the old head, and the new element waits at the
      tail; onto an empty queue it yields the new element itself. */
  lemma FifoOrder<T>(q: seq<T>, x: T)
    requires |q| < MaxQueueSize
    ensures Enqueue(q, x).Some?
    ensures |q| == 0 ==> Dequeue(Enqueue(q, x).value) == Some((x, []))
    ensures |q| > 0 ==> Dequeue(Enqueue(q, x).value) == Some((q[0], q[1..] + [x]))
  {
    var q' := Enqueue(q, x).value;
    assert q' == q + [x];
    if |q| > 0 {
      assert q'[1..] == q[1..] + [x];
    }
  }
}
