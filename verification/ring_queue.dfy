/**
 * The `RingQueue<ItemType, MAX_SIZE>` class template and its nested
 * `iterator`, as the draft implements them.
 *
 * The queue owns a fixed array of MAX_SIZE slots, a start index and a
 * live-element count. The draft never reduces the start index modulo
 * MAX_SIZE, never caps the count at MAX_SIZE, and its iterator never wraps;
 * the model keeps all three behaviours.
 */
module RingQueues {
  import opened RingArithmetic

  class RingQueue<T> {
    /** The template parameter MAX_SIZE. */
    const maxSize: nat
    /** The fixed-size backing array `buffer[MAX_SIZE]`. */
    const buffer: array<T>
    /** `begin_index`: advanced by pop_front, never wrapped. */
    var beginIndex: nat
    /** `ring_size`: the live-element count, never capped. */
    var ringSize: nat

    ghost predicate Valid()
    {
      0 < maxSize && buffer.Length == maxSize
    }

    /** The logical contents: element i is `buffer[(begin_index + i) % MAX_SIZE]`, for i < ring_size. */
    ghost function Contents(): (r: seq<T>)
      reads this, buffer
      requires Valid()
    {
      LiveElements(buffer[..], beginIndex, ringSize)
    }

    /**
     * `RingQueue()`: empty, starting at slot 0. The slots of the C++ array
     * are left uninitialised; their arbitrary contents are a parameter here.
     */
    constructor (uninitialised: seq<T>)
      requires |uninitialised| > 0
      ensures Valid() && fresh(buffer)
      ensures maxSize == |uninitialised| && buffer[..] == uninitialised
      ensures beginIndex == 0 && ringSize == 0 && Contents() == []
    {
      maxSize := |uninitialised|;
      buffer := new T[|uninitialised|](i requires 0 <= i < |uninitialised| => uninitialised[i]);
      beginIndex := 0;
      ringSize := 0;
    }

    /** `end_index()`: the slot the next push_back writes. */
    function EndIndex(): (r: nat)
      reads this
      requires Valid()
      ensures r < maxSize
      ensures beginIndex + ringSize < maxSize ==> r == beginIndex + ringSize
      ensures ringSize == maxSize ==> r == beginIndex % maxSize
    {
      if ringSize == maxSize then
        EndSlotAtCapacity(beginIndex, maxSize);
        Slot(beginIndex, ringSize, maxSize)
      else if beginIndex + ringSize < maxSize then
        DivModUnique(beginIndex + ringSize, maxSize, 0, beginIndex + ringSize);
        Slot(beginIndex, ringSize, maxSize)
      else
        Slot(beginIndex, ringSize, maxSize)
    }

    /**
     * `front()`: the slot at the start index, read without reduction
     * modulo MAX_SIZE. On an empty queue the C++ prints a warning and
     * returns the slot anyway.
     */
    function Front(): (r: T)
      reads this, buffer
      requires Valid() && beginIndex < maxSize
      ensures r == buffer[beginIndex]
      ensures ringSize > 0 ==> r == Contents()[0]
    {
      buffer[beginIndex]
    }

    /**
     * `back()`: the slot at end_index(), which is the slot the next
     * push_back writes, not the last live element. Below capacity no live
     * element sits there; on a queue holding exactly MAX_SIZE elements it
     * is the start slot, so back() returns the oldest element. On an empty
     * queue the C++ prints a warning and returns the slot anyway.
     */
    function Back(): (r: T)
      reads this, buffer
      requires Valid()
      ensures r == buffer[EndIndex()]
      ensures beginIndex + ringSize < maxSize ==> r == buffer[beginIndex + ringSize]
      ensures ringSize < maxSize ==>
                forall i :: 0 <= i < ringSize ==> EndIndex() != Slot(beginIndex, i, maxSize)
      ensures ringSize == maxSize ==> r == Contents()[0]
    {
      if ringSize < maxSize then
        EndSlotNotLive(beginIndex, ringSize, maxSize);
        buffer[EndIndex()]
      else
        buffer[EndIndex()]
    }

    /** `push_back(value)`: write at end_index() and count one more, with no capping. */
    method PushBack(value: T)
      requires Valid()
      modifies buffer, this`ringSize
      ensures Valid()
      ensures buffer[..] == old(buffer[..])[old(EndIndex()) := value]
      ensures beginIndex == old(beginIndex) && ringSize == old(ringSize) + 1
      ensures old(ringSize) < maxSize ==> Contents() == old(Contents()) + [value]
      ensures old(ringSize) == maxSize ==> buffer[beginIndex % maxSize] == value
      ensures old(ringSize) == maxSize ==> Contents() == [value] + old(Contents())[1..] + [value]
    {
      ghost var before := buffer[..];
      var e := EndIndex();
      buffer[e] := value;
      ringSize := ringSize + 1;
      assert buffer[..] == before[e := value];
      if old(ringSize) < maxSize {
        PushAppends(before, beginIndex, old(ringSize), value);
      } else if old(ringSize) == maxSize {
        PushAtCapacityOverwritesFront(before, beginIndex, value);
      }
    }

    /** `pop_front()`: advance the start index by one, unwrapped, and count one fewer. */
    method PopFront()
      requires Valid() && ringSize > 0
      modifies this`beginIndex, this`ringSize
      ensures Valid()
      ensures beginIndex == old(beginIndex) + 1 && ringSize == old(ringSize) - 1
      ensures Contents() == old(Contents())[1..]
      ensures EndIndex() == old(EndIndex())
    {
      PopDropsFront(buffer[..], beginIndex, ringSize);
      beginIndex := beginIndex + 1;
      ringSize := ringSize - 1;
    }

    /**
     * `return_begin_index()`: the raw start index. When it is still a slot
     * of the array, that slot holds the first element of a non-empty queue.
     */
    function ReturnBeginIndex(): (r: nat)
      reads this, buffer
      ensures r == beginIndex
      ensures Valid() && ringSize > 0 && r < maxSize ==> buffer[r] == Contents()[0]
    {
      beginIndex
    }

    /** `return_end_index()`: end_index(), always a valid slot. */
    function ReturnEndIndex(): (r: nat)
      reads this
      requires Valid()
      ensures r < maxSize
      ensures beginIndex + ringSize < maxSize ==> r == beginIndex + ringSize
    {
      EndIndex()
    }

    /** `size()`: the live-element count, the length of the logical contents. */
    function Size(): (r: nat)
      reads this, buffer
      requires Valid()
      ensures r == |Contents()|
    {
      ringSize
    }

    /** `begin()`: an iterator at the start index. */
    method Begin() returns (it: Iterator<T>)
      requires Valid()
      ensures fresh(it) && it.parent == this && it.offset == beginIndex
    {
      it := new Iterator(this, beginIndex);
    }

    /** `end()`: an iterator at end_index(). */
    method End() returns (it: Iterator<T>)
      requires Valid()
      ensures fresh(it) && it.parent == this && it.offset == EndIndex()
      ensures beginIndex + ringSize < maxSize ==> it.offset == beginIndex + ringSize
    {
      it := new Iterator(this, EndIndex());
    }
  }

  /**
   * `RingQueue::iterator`: a parent link and a raw slot offset. The
   * offset is a plain int that the increments never reduce modulo MAX_SIZE.
   */
  class Iterator<T> {
    const parent: RingQueue<T>
    var offset: int

    /** The private `iterator(parent, offset)` constructor used by begin() and end(). */
    constructor (parent: RingQueue<T>, offset: int)
      ensures this.parent == parent && this.offset == offset
    {
      this.parent := parent;
      this.offset := offset;
    }

    /**
     * `operator*`: the parent's slot at the offset, with no check against
     * the live range. Inside the live range of a queue that has not
     * wrapped, that slot holds the corresponding logical element.
     */
    function Deref(): (r: T)
      reads this, parent, parent.buffer
      requires 0 <= offset < parent.buffer.Length
      ensures r == parent.buffer[offset]
      ensures parent.Valid() && parent.beginIndex <= offset < parent.beginIndex + parent.ringSize
              ==> r == parent.Contents()[offset - parent.beginIndex]
    {
      parent.buffer[offset]
    }

    /** `operator++()`: one slot further, with no wrap; returns the iterator itself. */
    method PreIncrement() returns (self: Iterator<T>)
      modifies this`offset
      ensures self == this && offset == old(offset) + 1
    {
      offset := offset + 1;
      self := this;
    }

    /**
     * `operator++(int unused)`: adds its int argument (0 when called as
     * `it++`) to the offset, and returns a copy of the advanced iterator.
     */
    method PostIncrement(unused: int) returns (copy: Iterator<T>)
      modifies this`offset
      ensures offset == old(offset) + unused
      ensures fresh(copy) && copy.parent == parent && copy.offset == offset
    {
      offset := offset + unused;
      copy := new Iterator(parent, offset);
    }

    /**
     * `operator==`: same parent queue and same offset. Equal iterators
     * dereference to the same value.
     */
    predicate Equals(rhs: Iterator<T>)
      reads this, rhs, parent, parent.buffer
      ensures Equals(rhs) <==> parent == rhs.parent && offset == rhs.offset
      ensures parent == rhs.parent && offset == rhs.offset && 0 <= offset < parent.buffer.Length
              ==> rhs.Deref() == Deref()
    {
      parent == rhs.parent && offset == rhs.offset
    }

    /** `operator!=`: the exact negation of `operator==`. */
    predicate NotEquals(rhs: Iterator<T>)
      reads this, rhs, parent, parent.buffer
      ensures NotEquals(rhs) <==> parent != rhs.parent || offset != rhs.offset
    {
      !Equals(rhs)
    }
  }

  /** `operator==` is an equivalence: reflexive, symmetric and transitive. */
  lemma EqualsIsEquivalence<T>(a: Iterator<T>, b: Iterator<T>, c: Iterator<T>)
    ensures a.Equals(a)
    ensures a.Equals(b) ==> b.Equals(a)
    ensures a.Equals(b) && b.Equals(c) ==> a.Equals(c)
  {
  }
}
