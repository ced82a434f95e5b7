/** The part of std::vector that fmap relies on: the elements, the capacity,
    reserve and push_back. The capacity growth is the one of libstdc++. */
module StdVector {

  /** Capacity after one push_back on a vector holding `size` elements with
      capacity `cap`: unchanged while there is room, otherwise it grows to
      size + max(size, 1). */
  function GrownCapacity(size: nat, cap: nat): (c: nat)
    requires size <= cap
    ensures size < c
    ensures size < cap ==> c == cap
  {
    if size < cap then cap else size + (if size == 0 then 1 else size)
  }

  class Vector<T> {
    var elems: seq<T>
    var capacity: nat

    ghost predicate Valid()
      reads this
    {
      |elems| <= capacity
    }

    /** A default-constructed vector: empty, with no storage. */
    constructor ()
      ensures Valid()
      ensures elems == [] && capacity == 0
    {
      elems := [];
      capacity := 0;
    }

    /** reserve(n): the capacity becomes n when n is larger; the elements
        never change. */
    method Reserve(n: nat)
      requires Valid()
      modifies this
      ensures Valid()
      ensures elems == old(elems)
      ensures capacity == if n > old(capacity) then n else old(capacity)
    {
      if n > capacity {
        capacity := n;
      }
    }

    /** push_back(x): x becomes the new last element. */
    method PushBack(x: T)
      requires Valid()
      modifies this
      ensures Valid()
      ensures elems == old(elems) + [x]
      ensures capacity == GrownCapacity(old(|elems|), old(capacity))
    {
      capacity := GrownCapacity(|elems|, capacity);
      elems := elems + [x];
    }
  }
}
