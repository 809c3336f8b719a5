# RingQueue — a Dafny model of the draft ring buffer

This project models `RingQueue<ItemType, MAX_SIZE>` from `ring_queue.cpp`. It is a
fixed-capacity ring buffer with a nested forward `iterator`. The queue holds three
pieces of state: the array `buffer[MAX_SIZE]`, the start index `begin_index`, and the
live-element count `ring_size`. The next write goes to slot
`end_index() = (begin_index + ring_size) % MAX_SIZE`. The iterator holds a pointer to
its queue and a raw slot offset.

The source file is an unfinished draft. Its closing comment shows the output the
finished program should print. That output shows the eighth push evicting the oldest
element while the size stays at 7 (six values after one pop), and a traversal that
wraps from slot 6 to slot 0. The code does neither, and the model follows the code:

- `pop_front` adds 1 to `begin_index` with no modulo, so `front()` soon reads past the
  array. `PopFront` keeps this, and `Front` requires `beginIndex < maxSize`.
- `push_back` always adds 1 to `ring_size`, even past MAX_SIZE. At capacity it writes
  over the oldest live slot, and the count grows to MAX_SIZE + 1
  (`PushAtCapacityOverwritesFront`).
- `back()` reads slot `end_index()`. That is the slot the next push writes, not the
  last live element.
- `++it` adds 1 to the offset with no wrap. `it++` adds its `int` argument, which is
  0 when called as `it++`, and returns a copy of the advanced iterator.
- `pop_front` on an empty queue has no guard: `ring_size` becomes -1 and `size()`
  then returns `(size_t)-1`. The model keeps the count a natural number, since a
  negative count has no logical contents, so `PopFront` requires `ringSize > 0`.
  A pop leaves `begin_index + ring_size`, and with it `end_index()`, unchanged.

Layout:

- `ring_arithmetic.dfy` (module `RingArithmetic`): the index arithmetic on values.
  `Slot(begin, i, n)` is the slot of element i; with i = size it is `end_index`.
  `LiveElements(buf, begin, size)` is the queue's logical contents, whose element i
  is `buf[(begin + i) % |buf|]`. Lemmas say what a push or a
  pop does to the contents.
- `ring_queue.dfy` (module `RingQueues`): the classes `RingQueue` and `Iterator`.
  `buffer` is an `array<T>` that `PushBack` writes in place. `beginIndex`, `ringSize`
  and the iterator's `offset` are mutable fields. The ghost `Contents()` gives the
  logical sequence.
- `ring_queue_driver.dfy` (module `RingQueueDriver`): the demonstration driver's two
  traversal loops, and its run on `RingQueue<int, 7>`.

## Model

| member | source | states |
|---|---|---|
| `RingQueues.RingQueue.constructor` | ring_queue.cpp:133 | a new queue starts at index 0 with count 0 and empty contents; the buffer holds whatever the uninitialised array held |
| `RingQueues.RingQueue.EndIndex` | ring_queue.cpp:124-127 | end_index() is always a valid slot below MAX_SIZE; it is begin+size when that does not reach MAX_SIZE, and the start slot (begin mod MAX_SIZE) when the queue holds exactly MAX_SIZE elements |
| `RingArithmetic.EndSlotAtCapacity` | ring_queue.cpp:125 | with ring_size == MAX_SIZE the end slot coincides with the start slot |
| `RingQueues.RingQueue.Front` | ring_queue.cpp:136-139 | front() reads buffer[begin_index] (begin_index must be a valid slot, since the draft never wraps it); on a non-empty queue this is the first logical element |
| `RingQueues.RingQueue.Back` | ring_queue.cpp:140-143 | back() reads the slot at end_index(), the slot the next push writes: without wrap-around the slot just past the last live element; below capacity a slot no live element occupies; on a queue holding exactly MAX_SIZE elements the start slot, so the oldest element |
| `RingArithmetic.EndSlotNotLive` | ring_queue.cpp:124-127 | below capacity the end slot differs from the slot of every live element |
| `RingQueues.RingQueue.PushBack` | ring_queue.cpp:144-148 | writes value into slot end_index() and changes no other slot; begin_index is unchanged and ring_size grows by exactly one; below capacity the contents become old contents + [value]; at capacity the write lands on the start slot and the contents become [value] + old contents without their head + [value] |
| `RingArithmetic.PushAppends` | ring_queue.cpp:144-148 | below capacity the end slot holds no live element, so writing there and counting one more appends the value to the logical contents |
| `RingArithmetic.PushAtCapacityOverwritesFront` | ring_queue.cpp:144-148 | at capacity the write overwrites the oldest live element and the uncapped count makes the new value both first and last of the MAX_SIZE + 1 logical elements |
| `RingQueues.RingQueue.PopFront` | ring_queue.cpp:149-153 | on a non-empty queue: begin_index grows by exactly one (no wrap), ring_size shrinks by one, the buffer is untouched, the first logical element is dropped, and end_index() does not move |
| `RingArithmetic.PopDropsFront` | ring_queue.cpp:149-153 | advancing the start by one and counting one fewer drops exactly the first logical element |
| `RingQueues.RingQueue.ReturnBeginIndex` | ring_queue.cpp:155-157 | returns the raw start index; while it is a slot of the array, on a non-empty queue that slot holds the first logical element |
| `RingQueueDriver.BeginIndexOutgrowsBuffer` | ring_queue.cpp:155-157 | after MAX_SIZE + 1 pushes and MAX_SIZE pops one element is left and return_begin_index() reports MAX_SIZE, outside the array, because the start index is never reduced modulo MAX_SIZE |
| `RingQueues.RingQueue.ReturnEndIndex` | ring_queue.cpp:158-160 | returns end_index(): a valid slot, equal to begin+size without wrap-around |
| `RingQueues.RingQueue.Size` | ring_queue.cpp:170-172 | size() is the length of the logical contents |
| `RingQueues.RingQueue.Begin` | ring_queue.cpp:163-165 | begin() is a new iterator on this queue at offset begin_index |
| `RingQueues.RingQueue.End` | ring_queue.cpp:166-168 | end() is a new iterator on this queue at offset end_index(), which is begin+size without wrap-around |
| `RingArithmetic.ContiguousWithoutWrap` | ring_queue.cpp:163-168 | without wrap-around the logical contents are exactly the raw slots from begin() up to end() |
| `RingQueues.Iterator.constructor` | ring_queue.cpp:40-41 | an iterator holds its parent queue and the given offset |
| `RingQueues.Iterator.Deref` | ring_queue.cpp:50-52 | dereference reads the parent's slot at the offset, unchecked against the live range; inside a non-wrapping live range it is the logical element at offset - begin_index |
| `RingQueues.Iterator.PreIncrement` | ring_queue.cpp:54-57 | ++it adds exactly one to the offset, with no reduction modulo MAX_SIZE, and returns the same iterator |
| `RingQueues.Iterator.PostIncrement` | ring_queue.cpp:59-62 | it++ adds its int argument to the offset and returns a copy of the advanced iterator |
| `RingQueues.EqualsIsEquivalence` | ring_queue.cpp:64-69 | == (same parent and same offset) is reflexive, symmetric and transitive |
| `RingQueues.Iterator.Equals` | ring_queue.cpp:64-69 | == holds exactly when the parents and the offsets are equal, and equal iterators dereference to the same value |
| `RingQueues.Iterator.NotEquals` | ring_queue.cpp:71-75 | != holds exactly when the parents or the offsets differ, the negation of == |
| `RingQueueDriver.FreshQueueBeginIsEnd` | ring_queue.cpp:133 | a freshly constructed queue has size 0 and begin() == end() |
| `RingQueueDriver.VisitBySize` | ring_queue.cpp:205-209 | on an empty queue nothing is read, wherever begin_index stands; while the live range stays inside the array, size() applications of ++ to begin() visit the logical contents in order; they end at an iterator equal to end() exactly when the live range stops short of the last slot |
| `RingQueueDriver.VisitByIterators` | ring_queue.cpp:216-218 | when end_index() is not below begin_index, walking from begin() while != end() stops and visits the raw slots from begin_index up to end_index(): the logical contents when the live range does not wrap, nothing at all on a full queue |
| `RingQueueDriver.FullQueueBeginIsEnd` | ring_queue.cpp:163-168 | on a full queue, begin() and end() compare equal (just as on an empty queue) exactly when the start index is still a slot of the array |
| `RingQueueDriver.RawDumpScenario` | ring_queue.cpp:186-197 | RingQueue<int,7> after pushing 1..7 reports size() 7 and return_end_index() 0; after then pushing 8 it has raw buffer [8,2,3,4,5,6,7] (8 overwrote slot 0), size() 8, front() 8 and back() 2 |

## Left out

- `dump_queue` (ring_queue.cpp:175-181) prints slots and their addresses. This is console I/O and is not modelled.
- The `std::cerr` warnings that `front()` and `back()` print on an empty queue are no-ops in the model. The read happens as in the code.
- `main` and the commented-out driver are not modelled as a program. Only their traversal loops (`VisitBySize`, `VisitByIterators`) and the raw-dump run (`RawDumpScenario`) are modelled.
- The commented-out `const_iterator` is not implemented in the source.
- Overwrite-oldest eviction with the size pinned at capacity, and a traversal that wraps from the last slot to slot 0, appear only in the expected output (ring_queue.cpp:254-277). The code does not do them, so the model does not either.
- `Iterator.Deref`: `operator*` returns a reference, so a caller could write through it. The model returns the value only.
- `RingQueues.RingQueue.Front`: requires `beginIndex < maxSize`. After enough `pop_front` calls the C++ reads outside the array, which is undefined behaviour.
- `RingQueues.RingQueue.PopFront`: requires a non-empty queue. On an empty queue the C++ sets `ring_size` to -1 and `size()` then reports `(size_t)-1`; the model's count is a natural number, because a negative count has no logical contents.
- `RingQueueDriver.VisitBySize`: requires an empty queue or `begin_index + ring_size <= MAX_SIZE`. Otherwise some of the `size()` steps dereference an offset at or past MAX_SIZE, outside the array.
- `RingQueueDriver.VisitByIterators`: requires `begin_index <= end_index()`. Otherwise the unwrapped iterator passes the last slot without meeting `end()` and dereferences outside the array.
- 32-bit `int` overflow and `size_t` conversions are not modelled. Indices and counts are unbounded naturals, and offsets are unbounded integers.
- `MAX_SIZE` is taken to be at least 1, since C++ has no zero-length member arrays. The uninitialised slots of the new array are a constructor argument.
- `pointer`/`reference` typedefs, `friend` declarations, and the `private` access of the iterator constructor have no semantic content. They are not modelled.
