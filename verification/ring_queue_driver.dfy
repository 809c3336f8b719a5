/**
 * What the demonstration driver does with a `RingQueue<int, 7>`, and the two
 * traversal loops it writes against the iterator: counting to size(), and
 * walking from begin() until the iterator equals end().
 */
module RingQueueDriver {
  import opened RingArithmetic
  import opened RingQueues

  /** A freshly constructed queue is empty and begin() compares equal to end(). */
  method FreshQueueBeginIsEnd<T>(uninitialised: seq<T>) returns (size: nat, same: bool)
    requires |uninitialised| > 0
    ensures size == 0 && same
  {
    var q := new RingQueue<T>(uninitialised);
    var first := q.Begin();
    var last := q.End();
    size := q.Size();
    same := first.Equals(last);
  }

  /**
   * Walk with `++it` exactly size() times from begin(), collecting `*it`.
   * When the queue is empty nothing is read, wherever begin_index stands.
   * While the live range stays inside the array, the values collected
   * are the logical contents in order. The walk ends at end() unless the
   * live range reaches the last slot: then end_index() has wrapped to 0
   * while the unwrapped iterator stands at MAX_SIZE.
   */
  method VisitBySize<T>(q: RingQueue<T>) returns (visited: seq<T>, atEnd: bool)
    requires q.Valid() && (q.ringSize == 0 || q.beginIndex + q.ringSize <= q.maxSize)
    ensures visited == q.Contents()
    ensures atEnd <==> q.beginIndex + q.ringSize < q.maxSize
  {
    var it := q.Begin();
    var stop := q.End();
    visited := [];
    var i := 0;
    while i < q.Size()
      invariant 0 <= i <= q.ringSize
      invariant it.parent == q && it.offset == q.beginIndex + i
      invariant stop.parent == q && stop.offset == q.EndIndex()
      invariant visited == q.Contents()[..i]
    {
      visited := visited + [it.Deref()];
      var _ := it.PreIncrement();
      i := i + 1;
    }
    atEnd := it.Equals(stop);
  }

  /**
   * Walk with `++it` from begin() while `it != end()`, collecting `*it`.
   * The walk ends exactly when end_index() is not below begin_index; it
   * then collects the raw slots from begin_index up to end_index(). On a
   * queue whose live range does not wrap these are the logical contents;
   * on a full queue begin() equals end() and nothing is collected.
   */
  method VisitByIterators<T>(q: RingQueue<T>) returns (visited: seq<T>)
    requires q.Valid() && q.beginIndex <= q.EndIndex()
    ensures visited == q.buffer[q.beginIndex..q.EndIndex()]
    ensures q.beginIndex + q.ringSize < q.maxSize ==> visited == q.Contents()
    ensures q.ringSize == q.maxSize ==> visited == []
  {
    var it := q.Begin();
    var stop := q.End();
    visited := [];
    while it.NotEquals(stop)
      invariant it.parent == q && q.beginIndex <= it.offset <= q.EndIndex()
      invariant stop.parent == q && stop.offset == q.EndIndex()
      invariant visited == q.buffer[q.beginIndex..it.offset]
      decreases q.EndIndex() - it.offset
    {
      visited := visited + [it.Deref()];
      var _ := it.PreIncrement();
    }
    if q.beginIndex + q.ringSize < q.maxSize {
      ContiguousWithoutWrap(q.buffer[..], q.beginIndex, q.ringSize);
    }
    if q.ringSize == q.maxSize {
      DivModUnique(q.beginIndex, q.maxSize, 0, q.beginIndex);
    }
  }

  /**
   * On a full queue, begin() and end() compare equal exactly while the
   * start index is still a slot: the offsets alone cannot tell full from
   * empty. Once pops have carried the start index past the last slot,
   * end_index() (reduced modulo MAX_SIZE) no longer meets it.
   */
  method FullQueueBeginIsEnd<T>(q: RingQueue<T>) returns (same: bool)
    requires q.Valid() && q.ringSize == q.maxSize
    ensures same <==> q.beginIndex < q.maxSize
  {
    if q.beginIndex < q.maxSize {
      DivModUnique(q.beginIndex, q.maxSize, 0, q.beginIndex);
    }
    var first := q.Begin();
    var last := q.End();
    same := first.Equals(last);
  }

  /**
   * Push MAX_SIZE + 1 values, then pop MAX_SIZE of them: one element is
   * left, and return_begin_index() reports MAX_SIZE, an index outside the
   * array, because pop_front never wraps it.
   */
  method BeginIndexOutgrowsBuffer<T>(uninitialised: seq<T>, v: T) returns (raw: nat, size: nat)
    requires |uninitialised| > 0
    ensures raw == |uninitialised| && size == 1
  {
    var q := new RingQueue<T>(uninitialised);
    var i := 0;
    while i < q.maxSize + 1
      invariant 0 <= i <= q.maxSize + 1
      invariant q.Valid() && q.maxSize == |uninitialised|
      invariant q.beginIndex == 0 && q.ringSize == i
    {
      q.PushBack(v);
      i := i + 1;
    }
    var j := 0;
    while j < q.maxSize
      invariant 0 <= j <= q.maxSize
      invariant q.Valid() && q.maxSize == |uninitialised|
      invariant q.beginIndex == j && q.ringSize == q.maxSize + 1 - j
    {
      q.PopFront();
      j := j + 1;
    }
    raw := q.ReturnBeginIndex();
    size := q.Size();
  }

  /**
   * The driver's run on `RingQueue<int, 7>`: push 1..7, then 8. After
   * the seventh push size() reports 7 and return_end_index() reports
   * 7 % 7 = 0. The eighth push lands on slot 0, so the raw buffer reads 8, 2, .., 7 and
   * size() reports 8. front() then reads slot 0 (8) and back() reads
   * end_index() = 8 % 7 = 1 (2).
   */
  method RawDumpScenario(uninitialised: seq<int>)
    returns (sizeAtSeven: nat, endAtSeven: nat, raw: seq<int>, size: nat, front: int, back: int)
    requires |uninitialised| == 7
    ensures sizeAtSeven == 7 && endAtSeven == 0
    ensures raw == [8, 2, 3, 4, 5, 6, 7]
    ensures size == 8 && front == 8 && back == 2
  {
    var rq := new RingQueue<int>(uninitialised);
    var i := 0;
    while i < 7
      invariant 0 <= i <= 7
      invariant rq.Valid() && rq.maxSize == 7
      invariant rq.beginIndex == 0 && rq.ringSize == i
      invariant forall k :: 0 <= k < i ==> rq.buffer[k] == k + 1
    {
      rq.PushBack(i + 1);
      i := i + 1;
    }
    sizeAtSeven := rq.Size();
    endAtSeven := rq.ReturnEndIndex();
    rq.PushBack(8);
    raw := rq.buffer[..];
    size := rq.Size();
    front := rq.Front();
    back := rq.Back();
  }
}
