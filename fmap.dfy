/** fmap: build a new container by applying f to every element of a range, in
    order, after an optional reserve. Two variants: the one that dispatches on
    the can_reserve trait through try_reserve overloads, and the one that uses
    `if constexpr` on a can_reserve concept. In both, whether to reserve is
    decided by the C++ type checker: here it is the parameter `canReserve`,
    computed from what the argument types offer by CanReserveAsWritten (the
    trait) or CanReserve (the concept). */
module Fmap {
  import opened StdVector

  /** The specification of fmap's result: f of each input, in input order,
      one push_back per element. */
  function Transform<A, B>(f: A -> B, s: seq<A>): seq<B>
  {
    if s == [] then [] else Transform(f, s[..|s| - 1]) + [f(s[|s| - 1])]
  }

  /** Transform keeps the length and maps index i of the input to index i of
      the output; in particular an empty input gives an empty output. */
  lemma {:induction false} TransformPointwise<A, B>(f: A -> B, s: seq<A>)
    ensures |Transform(f, s)| == |s|
    ensures forall i :: 0 <= i < |s| ==> Transform(f, s)[i] == f(s[i])
  {
    if s != [] {
      TransformPointwise(f, s[..|s| - 1]);
    }
  }

  /** Capacity of a vector that starts empty after k push_backs with no
      reserve. */
  function CapacityAfterPushes(k: nat): (c: nat)
    ensures k <= c
  {
    if k == 0 then 0 else GrownCapacity(k - 1, CapacityAfterPushes(k - 1))
  }

  /** Growth by push_back alone stays below twice the size; together with
      k <= CapacityAfterPushes(k), the reserve path leaves between half and all
      of the capacity growth would leave. */
  lemma {:induction false} ReserveIsTight(k: nat)
    ensures k > 0 ==> CapacityAfterPushes(k) < 2 * k
  {
    if k > 0 {
      ReserveIsTight(k - 1);
    }
  }

  /** What the type checker knows about fmap's arguments: whether the result
      container has `void reserve(size_t)`, whether the range type has
      `size_t size() const`, and whether the range argument is an lvalue, in
      which case the forwarding parameter `_Rng&&` deduces `_Rng` as a
      reference type. */
  datatype ArgTypes = ArgTypes(destHasReserve: bool, srcHasSize: bool, srcIsLvalue: bool)

  /** The intended test: the destination can reserve and the source can report
      its size, whatever the argument's value category. The concept
      `can_reserve` of the `if constexpr` version is this test: its
      `const _T2&` collapses to a reference to the range either way. */
  function CanReserve(t: ArgTypes): bool
  {
    t.destHasReserve && t.srcHasSize
  }

  /** The trait `can_reserve<decltype(result), _Rng>::value` as written. For
      an lvalue argument `_Rng` is a reference type, `&_Up::size` names a
      member of a reference type, the `good` overload of `size` drops out by
      substitution failure, and the value is false. So the trait never
      reserves where the intended test does not, and never for an lvalue. */
  function CanReserveAsWritten(t: ArgTypes): (r: bool)
    ensures r ==> CanReserve(t)
    ensures t.srcIsLvalue ==> !r
  {
    t.destHasReserve && t.srcHasSize && !t.srcIsLvalue
  }

  /** The argument types of both drivers: a std::vector<int> result and the
      named std::vector<int> `v`, an lvalue. */
  function DriverTypes(): ArgTypes
  {
    ArgTypes(destHasReserve := true, srcHasSize := true, srcIsLvalue := true)
  }

  /** try_reserve: the std::true_type overload reserves the destination with
      the source's size; the std::false_type overload does nothing. */
  method TryReserve<A, B>(dest: Vector<B>, src: seq<A>, canReserve: bool)
    requires dest.Valid()
    modifies dest
    ensures dest.Valid()
    ensures dest.elems == old(dest.elems)
    ensures dest.capacity ==
      if canReserve && |src| > old(dest.capacity) then |src| else old(dest.capacity)
  {
    if canReserve {
      dest.Reserve(|src|);
    }
  }

  /** fmap with the trait and try_reserve. The contents do not depend on
      canReserve; only the capacity does. The input is a value and is only
      read. */
  method Fmap<A, B>(f: A -> B, inputs: seq<A>, canReserve: bool) returns (result: Vector<B>)
    ensures result.Valid()
    ensures result.elems == Transform(f, inputs)
    ensures result.capacity == if canReserve then |inputs| else CapacityAfterPushes(|inputs|)
  {
    result := new Vector<B>();
    TryReserve(result, inputs, canReserve);
    for i := 0 to |inputs|
      invariant result.Valid() && |result.elems| == i
      invariant result.elems == Transform(f, inputs[..i])
      invariant result.capacity == if canReserve then |inputs| else CapacityAfterPushes(i)
    {
      result.PushBack(f(inputs[i]));
      assert inputs[..i + 1][..i] == inputs[..i];
    }
    assert inputs[..|inputs|] == inputs;
  }

  /** fmap with the can_reserve concept and `if constexpr`. */
  method FmapConcepts<A, B>(f: A -> B, inputs: seq<A>, canReserve: bool) returns (result: Vector<B>)
    ensures result.Valid()
    ensures result.elems == Transform(f, inputs)
    ensures result.capacity == if canReserve then |inputs| else CapacityAfterPushes(|inputs|)
  {
    result := new Vector<B>();
    if canReserve {
      result.Reserve(|inputs|);
    }
    for i := 0 to |inputs|
      invariant result.Valid() && |result.elems| == i
      invariant result.elems == Transform(f, inputs[..i])
      invariant result.capacity == if canReserve then |inputs| else CapacityAfterPushes(i)
    {
      result.PushBack(f(inputs[i]));
      assert inputs[..i + 1][..i] == inputs[..i];
    }
    assert inputs[..|inputs|] == inputs;
  }

  lemma GrowthToFive()
    ensures CapacityAfterPushes(5) == 8
  {
    assert CapacityAfterPushes(1) == 1;
    assert CapacityAfterPushes(2) == 2;
    assert CapacityAfterPushes(3) == 4;
    assert CapacityAfterPushes(4) == 4;
  }

  /** The driver of the trait version, as written: the range `v` is an
      lvalue, the trait is false, and the result of five push_backs has
      capacity 8 instead of the 5 a reserve would give. */
  method FmapDemo() returns (r: seq<int>, capacity: nat)
    ensures r == [2, 3, 4, 5, 6]
    ensures capacity == 8
  {
    var inputs := [1, 2, 3, 4, 5];
    var v := Fmap(n => n + 1, inputs, CanReserveAsWritten(DriverTypes()));
    r, capacity := v.elems, v.capacity;
    TransformPointwise(n => n + 1, inputs);
    GrowthToFive();
  }

  /** The same driver with the trait tested on the decayed range type, as
      intended: the reserve path runs and the capacity is exactly 5. The
      contents are the same as in FmapDemo. */
  method FmapDecayedDemo() returns (r: seq<int>, capacity: nat)
    ensures r == [2, 3, 4, 5, 6]
    ensures capacity == 5
  {
    var inputs := [1, 2, 3, 4, 5];
    var v := Fmap(n => n + 1, inputs, CanReserve(DriverTypes()));
    r, capacity := v.elems, v.capacity;
    TransformPointwise(n => n + 1, inputs);
  }

  /** The driver of the concept version: the concept holds for the lvalue
      range, so the reserve path runs. */
  method FmapConceptsDemo() returns (r: seq<int>, capacity: nat)
    ensures r == [2, 3, 4, 5, 6]
    ensures capacity == 5
  {
    var inputs := [1, 2, 3, 4, 5];
    var v := FmapConcepts(n => n + 1, inputs, CanReserve(DriverTypes()));
    r, capacity := v.elems, v.capacity;
    TransformPointwise(n => n + 1, inputs);
  }
}
