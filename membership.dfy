/** `in`: membership tests on a range. The scan overload compares every
    element with the value and returns at the first match; the size overload,
    picked when the argument is a size_t, compares the range's size with it
    and never looks at the elements. */
module Membership {

  /** The C++ size_t of a 64-bit target. */
  newtype SizeT = x: int | 0 <= x < 0x1_0000_0000_0000_0000

  /** Some element of the range equals the value. */
  ghost predicate Occurs<T>(range: seq<T>, value: T)
  {
    exists i :: 0 <= i < |range| && range[i] == value
  }

  /** Index of the first element equal to value, or |range| when none is. */
  function FirstMatch<T(==)>(range: seq<T>, value: T): (k: nat)
    ensures k <= |range|
    ensures k < |range| ==> range[k] == value
    ensures forall j :: 0 <= j < k ==> range[j] != value
  {
    if range == [] then 0
    else if range[0] == value then 0
    else 1 + FirstMatch(range[1..], value)
  }

  /** Whatever follows the first match has no bearing on where the scan
      stops. */
  lemma {:induction false} FirstMatchIgnoresSuffix<T>(range: seq<T>, tail: seq<T>, value: T)
    requires Occurs(range, value)
    ensures FirstMatch(range + tail, value) == FirstMatch(range, value)
  {
    if range[0] != value {
      var i :| 0 <= i < |range| && range[i] == value;
      assert range[1..][i - 1] == value;
      assert (range + tail)[1..] == range[1..] + tail;
      FirstMatchIgnoresSuffix(range[1..], tail, value);
    }
  }

  /** The scan overload. `examined` counts the elements compared with value:
      up to and including the first match, or all of them. */
  method In<T(==)>(range: seq<T>, value: T) returns (found: bool, ghost examined: nat)
    ensures found <==> Occurs(range, value)
    ensures examined == if found then FirstMatch(range, value) + 1 else |range|
  {
    var i := 0;
    while i < |range|
      invariant 0 <= i <= |range|
      invariant forall j :: 0 <= j < i ==> range[j] != value
    {
      if range[i] == value {
        FirstMatchIsIndex(range, value, i);
        return true, i + 1;
      }
      i := i + 1;
    }
    return false, |range|;
  }

  /** A match at i, with none before it, is the first match. */
  lemma {:induction false} FirstMatchIsIndex<T>(range: seq<T>, value: T, i: nat)
    requires i < |range| && range[i] == value
    requires forall j :: 0 <= j < i ==> range[j] != value
    ensures FirstMatch(range, value) == i
  {
    if i > 0 {
      FirstMatchIsIndex(range[1..], value, i - 1);
    }
  }

  /** The size overload: true exactly when the range holds `value`
      elements. */
  function InSize<T>(range: seq<T>, value: SizeT): (r: bool)
    ensures r <==> |range| == value as int
  {
    if |range| == value as int then true else false
  }

  /** The size overload depends on the number of elements only. */
  lemma InSizeIgnoresElements<T>(a: seq<T>, b: seq<T>, value: SizeT)
    requires |a| == |b|
    ensures InSize(a, value) == InSize(b, value)
    ensures InSize(a, value) <==> |a| == value as int
  {
  }

  /** The argument of a call to `in`, tagged with the overload that C++
      resolution picks for it: a value comparable with the elements selects
      the scan, a size_t selects the size comparison. */
  datatype Argument<T> = Element(value: T) | Size(count: SizeT)

  /** A call to `in` after overload resolution. */
  method InOverloaded<T(==)>(range: seq<T>, arg: Argument<T>) returns (r: bool)
    ensures arg.Element? ==> (r <==> Occurs(range, arg.value))
    ensures arg.Size? ==> (r <==> |range| == arg.count as int)
  {
    match arg
    case Element(v) =>
      ghost var examined;
      r, examined := In(range, v);
    case Size(n) =>
      r := InSize(range, n);
  }

  /** The driver: in(v, "Hello") scans and finds "Hello"; in(v, 0) takes the
      size overload and compares 2 with 0. */
  method OverloadDemo() returns (hello: bool, zero: bool)
    ensures hello && !zero
  {
    var v := ["Hello", "World"];
    assert v[0] == "Hello";
    hello := InOverloaded(v, Element("Hello"));
    zero := InOverloaded(v, Size(0));
  }
}
