/** odd(n) = bool(n & 0x1): the lowest bit of the two's-complement
    representation. Instantiated for `int` (32 bits) and, in the unconstrained
    version, for `char` (signed, 8 bits), which is promoted to int before the
    `&`. The concept-constrained version admits `int` and rejects `char`. */
module Parity {

  newtype Int32 = x: int | -0x8000_0000 <= x < 0x8000_0000

  /** A signed 8-bit char. */
  newtype Char8 = x: int | -0x80 <= x < 0x80

  /** The two's-complement bit pattern of an int. */
  function Bits(n: Int32): bv32
  {
    ((n as int) % 0x1_0000_0000) as bv32
  }

  /** The int whose bit pattern, read as unsigned, is u. */
  function Signed(u: int): Int32
    requires 0 <= u < 0x1_0000_0000
  {
    if u < 0x8000_0000 then u as Int32 else (u - 0x1_0000_0000) as Int32
  }

  /** The int whose two's-complement bit pattern is b. */
  function FromBits(b: bv32): Int32
  {
    Signed(b as int)
  }

  /** The bitwise exclusive or of two ints. */
  function Xor(n: Int32, m: Int32): Int32
  {
    FromBits(Bits(n) ^ Bits(m))
  }

  /** odd(n) for an int: the low bit of the pattern is set exactly when the
      value is odd, negatives included; C++'s n % 2 is then 1 or -1, never 0. */
  function Odd(n: Int32): (r: bool)
    ensures r <==> (n as int) % 2 == 1
    ensures r <==> CRem(n as int, 2) != 0
  {
    LowBitOfPattern((n as int) % 0x1_0000_0000);
    PatternParity(n as int);
    RemainderByTwo(n as int);
    Bits(n) & 1 != 0
  }

  /** Integral promotion of a char to int keeps its value. */
  function Promote(c: Char8): Int32
  {
    (c as int) as Int32
  }

  /** odd(c) for a char: the `&` applies to the promoted value, so a char is
      odd exactly when its value is. */
  function OddChar(c: Char8): (r: bool)
    ensures r <==> (c as int) % 2 == 1
    ensures r <==> CRem(c as int, 2) != 0
  {
    Odd(Promote(c))
  }

  function Abs(x: int): int
  {
    if x < 0 then -x else x
  }

  /** C++ `/` on integers: the quotient is truncated toward zero. */
  function CDiv(a: int, b: int): int
    requires b != 0
  {
    var q := Abs(a) / Abs(b);
    if (a < 0) == (b < 0) then q else -q
  }

  /** C++ `%`: the remainder that goes with the truncated quotient, so it has
      the sign of the dividend and (a / b) * b + a % b == a. */
  function CRem(a: int, b: int): (r: int)
    requires b != 0
    ensures 0 <= a ==> 0 <= r < Abs(b)
    ensures a < 0 ==> -Abs(b) < r <= 0
    ensures CDiv(a, b) * b + r == a
  {
    TruncatedDivision(a, b);
    var m := Abs(a) % Abs(b);
    if a < 0 then -m else m
  }

  /** C++'s remainder by 2 is non-zero exactly on odd values. */
  lemma RemainderByTwo(x: int)
    ensures CRem(x, 2) != 0 <==> x % 2 == 1
  {
    if x < 0 {
      assert (-x) % 2 == 1 <==> x % 2 == 1;
    }
  }

  lemma TruncatedDivision(a: int, b: int)
    requires b != 0
    ensures CDiv(a, b) * b + (if a < 0 then -(Abs(a) % Abs(b)) else Abs(a) % Abs(b)) == a
  {
    var q, m := Abs(a) / Abs(b), Abs(a) % Abs(b);
    assert Abs(a) == q * Abs(b) + m;
    if b < 0 {
      assert q * Abs(b) == -(q * b);
    } else {
      assert q * Abs(b) == q * b;
    }
  }

  lemma LowBitOfPattern(u: int)
    requires 0 <= u < 0x1_0000_0000
    ensures ((u as bv32) & 1 != 0) <==> u % 2 == 1
  {
  }

  lemma PatternParity(n: int)
    requires -0x8000_0000 <= n < 0x8000_0000
    ensures (n % 0x1_0000_0000) % 2 == n % 2
  {
    if n < 0 {
      assert n % 0x1_0000_0000 == n + 0x1_0000_0000;
    }
  }

  /** Adding 2, where it does not overflow, keeps the parity. */
  lemma OddStep(n: Int32, m: Int32)
    requires m as int == n as int + 2
    ensures Odd(m) == Odd(n)
  {
    ParityOfStep(n as int);
  }

  lemma ParityOfStep(x: int)
    ensures (x + 2) % 2 == x % 2
  {
  }

  lemma PatternRoundTrip(b: bv32)
    ensures 0 <= b as int < 0x1_0000_0000
    ensures (b as int) as bv32 == b
  {
  }

  lemma BitsOfSigned(u: int)
    requires 0 <= u < 0x1_0000_0000
    ensures Bits(Signed(u)) == u as bv32
  {
    assert (Signed(u) as int) % 0x1_0000_0000 == u;
  }

  lemma BitsOfFromBits(b: bv32)
    ensures Bits(FromBits(b)) == b
  {
    PatternRoundTrip(b);
    BitsOfSigned(b as int);
  }

  /** Only the lowest bit counts: xor with an even mask keeps the parity. */
  lemma OddIgnoresEvenMask(n: Int32, m: Int32)
    requires !Odd(m)
    ensures Odd(Xor(n, m)) == Odd(n)
  {
    BitsOfFromBits(Bits(n) ^ Bits(m));
  }

  /** The driver of the unconstrained version: odd(1) and odd('a') hold. */
  lemma OddExamples()
    ensures Odd(1)
    ensures OddChar(('a' as int) as Char8)
  {
  }

  /** The driver of the constrained version: odd(1) holds, odd(0) does not. */
  lemma OddConceptsExamples()
    ensures Odd(1) && !Odd(0)
  {
  }
}
