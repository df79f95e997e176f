/**
  include/runtime/ChaseLevDeque.hpp in its own form, run by one thread at a time: a ring of slots
  updated in place, doubled by a copy loop, between two ever-growing indices.
 */
module RingDeque {
  import opened Arithmetic
  import opened Tasks

  function Slot<T>(ring: seq<T>, i: int): T
    requires |ring| > 0
  {
    ring[i % |ring|]
  }

  /** The elements at indices `lo` to `hi` of a ring. */
  ghost function Window<T>(ring: seq<T>, lo: int, hi: int): (w: seq<T>)
    requires |ring| > 0 && lo <= hi
    ensures |w| == hi - lo
    ensures forall i {:trigger Slot(ring, i)} :: lo <= i < hi ==> w[i - lo] == Slot(ring, i)
  {
    seq(hi - lo, j => Slot(ring, lo + j))
  }

  lemma SetSlot<T>(ring: seq<T>, i: int, x: T)
    requires |ring| > 0
    ensures var ring' := ring[i % |ring| := x];
            && Slot(ring', i) == x
            && forall j {:trigger Slot(ring', j)} ::
                 i - |ring| < j < i + |ring| && j != i ==> Slot(ring', j) == Slot(ring, j)
  {
    var ring' := ring[i % |ring| := x];
    forall j {:trigger Slot(ring', j)} | i - |ring| < j < i + |ring| && j != i
      ensures Slot(ring', j) == Slot(ring, j)
    {
      SlotsDiffer(if i < j then i else j, if i < j then j else i, |ring|);
    }
  }

  lemma WindowEqual<T>(ring: seq<T>, ring': seq<T>, lo: int, hi: int)
    requires |ring| > 0 && |ring'| > 0 && lo <= hi
    requires forall i {:trigger Slot(ring, i)} {:trigger Slot(ring', i)} ::
               lo <= i < hi ==> Slot(ring', i) == Slot(ring, i)
    ensures Window(ring', lo, hi) == Window(ring, lo, hi)
  {
    forall j | 0 <= j < hi - lo
      ensures Window(ring', lo, hi)[j] == Window(ring, lo, hi)[j]
    {
      assert Slot(ring', lo + j) == Slot(ring, lo + j);
    }
  }

  /** Writing the slot of index `hi` appends to the window, whatever slot the write lands on. */
  lemma WindowAppend<T>(ring: seq<T>, lo: int, hi: int, x: T)
    requires |ring| > 0 && lo <= hi < lo + |ring|
    ensures Window(ring[hi % |ring| := x], lo, hi + 1) == Window(ring, lo, hi) + [x]
  {
    var ring' := ring[hi % |ring| := x];
    SetSlot(ring, hi, x);
    forall j | 0 <= j < hi + 1 - lo
      ensures Window(ring', lo, hi + 1)[j] == (Window(ring, lo, hi) + [x])[j]
    {
      assert Slot(ring', lo + j) == if lo + j == hi then x else Slot(ring, lo + j);
    }
  }

  /** The least power of two that is at least `n`. */
  method NextPow2(n: nat) returns (p: nat)
    ensures IsPow2(p)
    ensures n <= p && (p == 1 || p < 2 * n)
  {
    p := 1;
    ghost var k := 0;
    while p < n
      invariant p == Pow2(k)
      invariant p == 1 || p < 2 * n
      decreases n - p
    {
      p := 2 * p;
      k := k + 1;
    }
  }

  class RingBuffer {
    const slots: array<Task>

    constructor (capacity: nat)
      ensures fresh(slots) && slots.Length == capacity
    {
      slots := new Task[capacity];
    }

    method Get(i: int) returns (t: Task)
      requires slots.Length > 0
      ensures t == Slot(slots[..], i)
    {
      t := slots[i % slots.Length];
    }

    method Put(i: int, t: Task)
      requires slots.Length > 0
      modifies slots
      ensures slots[..] == old(slots[..])[i % slots.Length := t]
    {
      slots[i % slots.Length] := t;
    }

    /** A ring twice as large with the same elements at the same indices; this ring is not touched. */
    method Grow(top: int, bottom: int) returns (grown: RingBuffer)
      requires slots.Length > 0 && top <= bottom <= top + slots.Length
      ensures fresh(grown) && fresh(grown.slots) && grown.slots.Length == 2 * slots.Length
      ensures Window(grown.slots[..], top, bottom) == Window(slots[..], top, bottom)
    {
      grown := new RingBuffer(2 * slots.Length);
      var i := top;
      while i < bottom
        invariant top <= i <= bottom
        invariant forall j {:trigger Slot(slots[..], j)} ::
                    top <= j < i ==> Slot(grown.slots[..], j) == Slot(slots[..], j)
      {
        ghost var before := grown.slots[..];
        var t := Get(i);
        grown.Put(i, t);
        SetSlot(before, i, t);
        i := i + 1;
      }
      WindowEqual(slots[..], grown.slots[..], top, bottom);
    }
  }

  class ChaseLevDeque {
    var top: int
    var bottom: int
    var buffer: RingBuffer
    var oldBuffers: seq<RingBuffer>

    ghost predicate Valid()
      reads this, buffer
    {
      0 <= top <= bottom && bottom - top < buffer.slots.Length && IsPow2(buffer.slots.Length)
    }

    ghost function Contents(): (q: seq<Task>)
      requires Valid()
      reads this, buffer, buffer.slots
      ensures |q| == bottom - top
    {
      Window(buffer.slots[..], top, bottom)
    }

    constructor (initialCapacity: nat)
      ensures Valid() && Contents() == [] && fresh(buffer) && fresh(buffer.slots)
      ensures var cap := buffer.slots.Length; initialCapacity <= cap && (cap == 1 || cap < 2 * initialCapacity)
    {
      var capacity := NextPow2(initialCapacity);
      top, bottom := 0, 0;
      buffer := new RingBuffer(capacity);
      oldBuffers := [];
    }

    /** Adds the newest element; when it must grow, the old ring is retired unchanged, not freed. */
    method Push(task: Task)
      requires Valid()
      modifies this, buffer.slots
      ensures Valid() && Contents() == old(Contents()) + [task]
      ensures buffer == old(buffer) <==> |old(Contents())| < old(buffer.slots.Length) - 1
      ensures buffer == old(buffer) ||
              (fresh(buffer) && fresh(buffer.slots) && buffer.slots.Length == 2 * old(buffer.slots.Length))
      ensures oldBuffers == if buffer == old(buffer) then old(oldBuffers) else old(oldBuffers) + [old(buffer)]
      ensures buffer != old(buffer) ==> old(buffer).slots[..] == old(buffer.slots[..])
    {
      var b, t := bottom, top;
      if b - t >= buffer.slots.Length - 1 {
        var grown := buffer.Grow(t, b);
        Doubling(buffer.slots.Length);
        oldBuffers := oldBuffers + [buffer];
        buffer := grown;
      }
      WindowAppend(buffer.slots[..], t, b, task);
      buffer.Put(b, task);
      bottom := b + 1;
    }

    /** Last in, first out: removes the newest element. */
    method Pop() returns (out: Option<Task>)
      requires Valid()
      modifies this
      ensures Valid() && buffer == old(buffer) && oldBuffers == old(oldBuffers)
      ensures out.None? <==> old(Contents()) == []
      ensures out.None? ==> Contents() == []
      ensures out.Some? ==> old(Contents()) == Contents() + [out.value]
    {
      var b := bottom - 1;
      bottom := b;
      var t := top;
      if t > b {
        bottom := b + 1;
        return None;
      }
      var task := buffer.Get(b);
      if t == b {
        top := t + 1;
        bottom := b + 1;
      }
      out := Some(task);
    }

    /** First in, first out: removes the oldest element. */
    method Steal() returns (out: Option<Task>)
      requires Valid()
      modifies this
      ensures Valid() && buffer == old(buffer) && oldBuffers == old(oldBuffers)
      ensures out.None? <==> old(Contents()) == []
      ensures out.None? ==> Contents() == []
      ensures out.Some? ==> old(Contents()) == [out.value] + Contents()
    {
      var t, b := top, bottom;
      if t >= b {
        return None;
      }
      var task := buffer.Get(t);
      top := t + 1;
      out := Some(task);
    }

    method Size() returns (n: nat)
      requires Valid()
      ensures n == |Contents()|
    {
      n := if bottom > top then bottom - top else 0;
    }
  }
}
