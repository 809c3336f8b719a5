/**
 * Index arithmetic of the ring queue, on values.
 *
 * A ring queue over a buffer of capacity n = |buf| keeps a start index
 * `begin` and a live-element count `size`; the i-th live element sits in
 * slot (begin + i) % n and the next write goes to slot (begin + size) % n.
 * Neither `begin` nor `size` is reduced modulo n by the queue itself, so
 * both are unbounded naturals here.
 */
module RingArithmetic {

  /**
   * The slot of the element i places after the start. With i = size it is
   * the slot the next push writes: `end_index()` of the queue.
   */
  function Slot(begin: nat, i: nat, n: nat): (r: nat)
    requires n > 0
    ensures r < n
  {
    (begin + i) % n
  }

  /** Euclidean division by a positive n has one quotient and one remainder. */
  lemma DivModUnique(m: int, n: nat, q: int, r: int)
    requires n > 0 && 0 <= r < n && m == q * n + r
    ensures m / n == q && m % n == r
  {
    var q', r' := m / n, m % n;
    var k := q - q';
    assert k * n == r' - r;
    assert k < 1;
    assert k > -1;
  }

  /** On a queue holding exactly n elements the end slot is the start slot. */
  lemma EndSlotAtCapacity(begin: nat, n: nat)
    requires n > 0
    ensures Slot(begin, n, n) == begin % n
  {
    DivModUnique(begin + n, n, begin / n + 1, begin % n);
  }

  /** The logical contents of the queue: the i-th live element is read from slot (begin + i) % |buf|. */
  function LiveElements<T>(buf: seq<T>, begin: nat, size: nat): (r: seq<T>)
    requires |buf| > 0
  {
    seq(size, i requires 0 <= i < size => buf[(begin + i) % |buf|])
  }

  /** Two positions less than a full turn apart never share a slot. */
  lemma {:induction false} SlotsDistinct(x: nat, y: nat, n: nat)
    requires n > 0 && x < y < x + n
    ensures x % n != y % n
  {
    var q, r := x / n, x % n;
    var d := y - x;
    if r + d < n {
      DivModUnique(y, n, q, r + d);
    } else {
      DivModUnique(y, n, q + 1, r + d - n);
    }
  }

  /** Below capacity, no live element occupies the end slot. */
  lemma {:induction false} EndSlotNotLive(begin: nat, size: nat, n: nat)
    requires n > 0 && size < n
    ensures forall i :: 0 <= i < size ==> Slot(begin, i, n) != Slot(begin, size, n)
  {
    forall i | 0 <= i < size
      ensures Slot(begin, i, n) != Slot(begin, size, n)
    {
      SlotsDistinct(begin + i, begin + size, n);
    }
  }

  /**
   * Below capacity, the end slot is free: no live element occupies it, so
   * writing there and counting one more element appends to the contents.
   */
  lemma {:induction false} PushAppends<T>(buf: seq<T>, begin: nat, size: nat, v: T)
    requires |buf| > 0 && size < |buf|
    ensures LiveElements(buf[Slot(begin, size, |buf|) := v], begin, size + 1)
            == LiveElements(buf, begin, size) + [v]
  {
    var n := |buf|;
    var e := Slot(begin, size, n);
    var after := LiveElements(buf[e := v], begin, size + 1);
    var before := LiveElements(buf, begin, size) + [v];
    EndSlotNotLive(begin, size, n);
    forall i | 0 <= i < size + 1
      ensures after[i] == before[i]
    {
      if i < size {
        assert Slot(begin, i, n) != e;
      }
    }
  }

  /**
   * At capacity the end slot is the start slot: the write lands on the
   * oldest live element, and the count grows past the capacity, so the
   * new value is seen both first and last.
   */
  lemma {:induction false} PushAtCapacityOverwritesFront<T>(buf: seq<T>, begin: nat, v: T)
    requires |buf| > 0
    ensures LiveElements(buf[Slot(begin, |buf|, |buf|) := v], begin, |buf| + 1)
            == [v] + LiveElements(buf, begin, |buf|)[1..] + [v]
  {
    var n := |buf|;
    var e := Slot(begin, n, n);
    EndSlotAtCapacity(begin, n);
    var after := LiveElements(buf[e := v], begin, n + 1);
    var before := [v] + LiveElements(buf, begin, n)[1..] + [v];
    forall i | 0 <= i < n + 1
      ensures after[i] == before[i]
    {
      if 0 < i < n {
        SlotsDistinct(begin, begin + i, n);
      } else if i == n {
        assert (begin + n) % n == e;
      }
    }
  }

  /** Advancing the start by one and counting one fewer drops the first live element. */
  lemma PopDropsFront<T>(buf: seq<T>, begin: nat, size: nat)
    requires |buf| > 0 && size > 0
    ensures LiveElements(buf, begin + 1, size - 1) == LiveElements(buf, begin, size)[1..]
  {
  }

  /** Without wrap-around the live elements are one contiguous stretch of the buffer. */
  lemma ContiguousWithoutWrap<T>(buf: seq<T>, begin: nat, size: nat)
    requires |buf| > 0 && begin + size <= |buf|
    ensures LiveElements(buf, begin, size) == buf[begin..begin + size]
  {
    var live := LiveElements(buf, begin, size);
    forall i | 0 <= i < size
      ensures live[i] == buf[begin + i]
    {
      DivModUnique(begin + i, |buf|, 0, begin + i);
    }
  }
}
