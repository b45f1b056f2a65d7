/**
 The bounded queue both session kinds keep their outgoing work in: a ring over a
 fixed array.  As in boost::circular_buffer, pushing onto a full ring does not
 fail, it overwrites the front element.
 */
module CircularBuffers {

  const LIMIT: nat := 64

  /** Contents after push_back. */
  function Pushed<T>(items: seq<T>, x: T): seq<T> {
    if |items| < LIMIT then items + [x] else items[1..] + [x]
  }

  /** Contents after pop_front; popping an empty ring is never reached. */
  function Popped<T>(items: seq<T>): seq<T> {
    if items == [] then [] else items[1..]
  }

  /** Slot k places behind the start, for k below LIMIT. */
  function Wrap(k: nat): nat
    requires k < 2 * LIMIT
  {
    if k < LIMIT then k else k - LIMIT
  }

  class CircularBuffer<T(0)> {
    const slots: array<T>
    var start: nat
    var size: nat

    /** The stored elements, front first. */
    ghost var items: seq<T>

    ghost predicate Valid()
      reads this, slots
    {
      && slots.Length == LIMIT
      && start < LIMIT
      && |items| == size <= LIMIT
      && forall i | 0 <= i < size :: slots[Wrap(start + i)] == items[i]
    }

    constructor ()
      ensures Valid() && fresh(slots) && items == []
    {
      slots := new T[LIMIT];
      start, size, items := 0, 0, [];
    }

    predicate IsEmpty()
      requires Valid()
      reads this, slots
      ensures IsEmpty() == (items == [])
    {
      size == 0
    }

    predicate IsFull()
      requires Valid()
      reads this, slots
      ensures IsFull() == (|items| >= LIMIT)
    {
      size >= LIMIT
    }

    method Front() returns (x: T)
      requires Valid() && items != []
      ensures x == items[0]
    {
      assert slots[Wrap(start + 0)] == items[0];
      x := slots[start];
    }

    method PushBack(x: T)
      requires Valid()
      modifies this, slots
      ensures Valid() && items == Pushed(old(items), x)
    {
      slots[Wrap(start + size)] := x;
      items := Pushed(items, x);
      if size < LIMIT {
        size := size + 1;
      } else {
        start := Wrap(start + 1);
      }
    }

    method PopFront()
      requires Valid() && items != []
      modifies this
      ensures Valid() && items == Popped(old(items))
    {
      start, size, items := Wrap(start + 1), size - 1, Popped(items);
    }
  }
}
