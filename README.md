# Concept demonstrations from cpp_summit_2017, modelled in Dafny

The repository is a set of short C++ programs showing constrained generic
programming: concepts, `if constexpr`, and the SFINAE techniques they replace.
Most of what the programs show is whether a call compiles. Three function
families also have runtime behaviour, and this project models and proves it:

- `fmap` (`code/fmap.cpp`, `code/fmap_concepts.cpp`) builds a new container
  from a range. It may first reserve space. The intent is to reserve whenever the
  destination has `reserve(size_t)` and the source has `size()`. The trait in
  `code/fmap.cpp` is also false whenever the range argument is an lvalue, so
  that file's own driver never reserves (see "## Findings"). It then calls
  `push_back(f(item))` for each item in order. Module `Fmap` models both versions. The first picks a
  `try_reserve` overload by tag dispatch; the second uses `if constexpr`. Module
  `StdVector` models the destination `std::vector`: its elements, its capacity,
  `reserve` and `push_back`.
- `in` (`code/sutton_example*.cpp`) is a membership test, modelled in module
  `Membership`. The scan overload returns `true` at the first element equal to
  the value. The size overload returns `range.size() == value`. The source
  defines the same scan in three files and the same overload pair in two files
  (once with concepts, once with SFINAE). All of them behave the same at
  runtime, so the model defines each once.
- `odd` (`code/odd.cpp`, `code/odd_concepts.cpp`) is `bool(n & 0x1)`, modelled in
  module `Parity`. An `int` is a value in [-2^31, 2^31). Its bit pattern is its
  two's-complement `bv32`, and `odd` tests bit 0 of that pattern. Whether a plain
  `char` is signed is up to the implementation; the model takes the signed 8-bit
  choice of x86-64. Integral promotion turns the `char` into an `int` before the `&`.

The C++ type checker decides two things. Whether `fmap` may reserve is the
boolean parameter `canReserve`. It is computed from an `ArgTypes` value that
records what the argument types offer. Which `in` overload a call selects is the tag
of an `Argument` value: `Element` or `Size`.

## Model

| member | source | states |
|---|---|---|
| `StdVector.Vector.constructor` | code/fmap.cpp:64 | the default-constructed result container is empty and has no capacity |
| `StdVector.Vector.Reserve` | code/fmap.cpp:39 | `reserve(n)` raises the capacity to n when n is larger and leaves the elements unchanged |
| `StdVector.Vector.PushBack` | code/fmap.cpp:70 | `push_back(x)` appends exactly x at the end and keeps capacity at least the size; the capacity grows only when the vector is full |
| `Fmap.TransformPointwise` | code/fmap.cpp:69-71 | the specification of fmap's result has the input's length, and element i is `f(inputs[i])`; so an empty input gives an empty result and input order is kept |
| `Fmap.CapacityAfterPushes` | code/fmap.cpp:69-70 | after k `push_back`s into an empty vector with no reserve, the capacity is at least k |
| `Fmap.ReserveIsTight` | code/fmap.cpp:36-40 | growth by `push_back` alone stays below twice the size; with `CapacityAfterPushes`, the reserved capacity (the size) is at least half of it and never more |
| `Fmap.CanReserveAsWritten` | code/fmap.cpp:13-27 | the trait as written is true only where the intended test (destination has `reserve`, source has `size`) is true, and is never true for an lvalue range, because `_Rng` is then a reference type and `&_Up::size` fails substitution |
| `Fmap.TryReserve` | code/fmap.cpp:29-40 | the `false_type` overload does nothing; the `true_type` overload reserves the source's size; neither changes the destination's elements |
| `Fmap.Fmap` | code/fmap.cpp:53-72 | the result holds f of each input in order, whether or not the reserve path ran; its capacity is exactly the input size when `can_reserve` holds, and otherwise what growth alone gives; the input is only read |
| `Fmap.FmapConcepts` | code/fmap_concepts.cpp:19-36 | the same for the `if constexpr` version: the contents are f of each input in order either way; the capacity is exactly `inputs.size()` when `can_reserve` holds and reserve ran, and the `push_back` growth from empty when it does not |
| `Fmap.FmapDemo` | code/fmap.cpp:74-80 | fmap of `n + 1` over the lvalue `{1,2,3,4,5}` gives `{2,3,4,5,6}`; the trait is false for it, so no reserve happens and the capacity is 8 |
| `Fmap.FmapDecayedDemo` | code/fmap.cpp:65-68 | with the trait tested on the decayed range type, the same driver reserves: the contents are the same `{2,3,4,5,6}` and the capacity is exactly 5 |
| `Fmap.FmapConceptsDemo` | code/fmap_concepts.cpp:38-44 | the concept version gives `{2,3,4,5,6}` on the same driver; the concept holds for the lvalue range, so the capacity is exactly 5 |
| `Membership.FirstMatch` | code/sutton_example.cpp:17-19 | the index where the scan stops is the first element equal to the value, or the range's length when no element is |
| `Membership.FirstMatchIgnoresSuffix` | code/sutton_example_overload.cpp:17-19 | when the value occurs, elements after its first occurrence do not affect where the scan stops |
| `Membership.In` | code/sutton_example.cpp:12-21 | the scan returns true iff some element equals the value, so an empty range gives false; it compares elements up to and including the first match and no further, or all of them when there is none |
| `Membership.InSize` | code/sutton_example_overload.cpp:23-30 | the size overload is true exactly when the number of elements equals the value; it is computed from the length alone, so no element is ever inspected |
| `Membership.InSizeIgnoresElements` | code/sutton_example_overload_sfinae.cpp:21-27 | the size overload is true iff the range's size equals the value, and it depends on the number of elements only, not on what they are |
| `Membership.InOverloaded` | code/sutton_example_overload_sfinae.cpp:12-27 | a call whose argument selects the element overload returns whether some element equals it; a call with a `size_t` returns whether the size equals it (the concept-constrained pair at code/sutton_example_overload.cpp:12-30 behaves the same) |
| `Membership.OverloadDemo` | code/sutton_example_overload.cpp:32-37 | on `{"Hello","World"}`, `in(v, "Hello")` is true and `in(v, 0)` takes the size overload and is false (`2 == 0`); the SFINAE file's driver is the same |
| `Parity.Odd` | code/odd.cpp:3-7 | `odd(n)`, the low bit of the two's-complement pattern, is true iff n is odd as an integer, negatives included: C++'s `n % 2` is then non-zero, and the Euclidean `n % 2` is 1 |
| `Parity.OddStep` | code/odd.cpp:6 | `odd(n + 2) == odd(n)` whenever `n + 2` does not overflow |
| `Parity.OddIgnoresEvenMask` | code/odd_concepts.cpp:4-8 | only the lowest bit counts: `odd(n ^ m) == odd(n)` for every mask m with `odd(m)` false |
| `Parity.OddChar` | code/odd.cpp:13 | for a `char`, promoted to `int` before the `&`, `odd(c)` is true iff the character's value is odd (C++'s `c % 2` is non-zero) |
| `Parity.OddExamples` | code/odd.cpp:9-14 | `odd(1)` is true and `odd('a')` (code 97) is true |
| `Parity.OddConceptsExamples` | code/odd_concepts.cpp:10-12 | in the `Integer`-constrained version, `odd(1)` is true and `odd(0)` is false |

## Findings

| source | as written | input that shows it | evidently intended | confidence | as-written member | corrected member |
|---|---|---|---|---|---|---|
| code/fmap.cpp:65-68 | `can_reserve<decltype(result), _Rng>` is given the deduced forwarding type `_Rng`, which is `std::vector<int>&` for an lvalue range; `&_Up::size` on a reference type fails substitution, so the trait is false and `try_reserve` does nothing | the driver's `fmap([](int n) { return n + 1; }, v)` with the named vector `v` (code/fmap.cpp:76-77): no reserve, capacity 8 after five `push_back`s | test the decayed range type (`std::decay_t<_Rng>`), as the concept version effectively does, so that an lvalue vector is reserved: capacity 5 | medium, from reading the code; not executed | `Fmap.FmapDemo` | `Fmap.FmapDecayedDemo` |

## Left out

- `code/concepts.h` and its macro fallback are not part of this model. They define compile-time predicates on types (`Semiring`, `Ring`, `Integer`, ...) and have no runtime behaviour.
- `code/test_concepts.cpp` is not part of this model: it prints whether types from the Armadillo library satisfy concepts, and that library is not visible.
- `code/plus.cpp` is not part of this model: its only point is that a mixed-type call is rejected at compile time.
- The calls that must not compile are not modelled: `odd(1.0)`, `odd('a')` under `Integer`, and `in(v, 0)` in `code/sutton_example.cpp`. They are facts about the type checker, not runtime behaviour.
- The detection machinery is not modelled: `can_reserve`'s `sizeof` tests, `_SFINAE1/2`, `adl_begin`/`adl_end`, and the `decltype` return types. Its outcome is the `canReserve` parameter for `fmap` and the `Argument` tag for `in`.
- Fmap.Fmap: only a `std::vector` destination is modelled. The template-template container and allocator parameters are not. A container without `reserve` is represented only by `canReserve = false`.
- StdVector.Vector.PushBack: the capacity growth is that of libstdc++ (size + max(size, 1) when full). The C++ standard only promises amortised constant time.
- StdVector.Vector.Reserve: the capacity becomes exactly n when n is larger, as in libstdc++. The C++ standard only promises `capacity() >= n`. It also does not model `length_error` when n exceeds `max_size()`, or allocation failure.
- Fmap.Fmap: `f` is a total Dafny function. Side effects or exceptions thrown by `f` are not modelled, and neither are exceptions from `push_back`.
- Fmap.FmapDemo: the lambda `n + 1` is on unbounded integers. The driver's inputs 1 to 5 cannot overflow an `int`.
- Ranges are Dafny sequences, passed by value. "The range is only read" therefore holds by construction and is not a separate statement.
- Membership.In: which elements were compared is reported as a ghost count, `examined`. It is not a trace of the comparisons.
- Parity.OddChar: a plain `char` is taken to be signed and 8 bits wide (values -128 to 127), as on x86-64. On targets where `char` is unsigned (ARM, PowerPC) its values are 0 to 255. The result of `odd` is the same on both, because promotion keeps the value.
- Membership.InOverloaded: the element overload compares values of one type. The source allows any type `T` that is `EqualityComparableWith` the element type (`std::string == const char*` in the drivers); here `"Hello"` is already a Dafny string.
- Parity: `odd` is modelled for `int` and `char`, the instantiations the drivers use. Other integer widths are not modelled.
- All output through `std::cout` and `ostream_iterator` is I/O and is not modelled.
