/** Alignment arithmetic shared by every allocator (util.hpp), the error
    kinds the allocators report, and the platform constants they depend on.

    Addresses and sizes are natural numbers; the address 0 stands for
    `nullptr`. The constants are those of the x86-64 target the unit tests
    hard-code. */
module Util {

  /** alignof(std::max_align_t) */
  const MAX_ALIGN: nat := 16
  /** sizeof(void*) == alignof(void*) */
  const POINTER_SIZE: nat := 8
  /** One past the largest value of std::size_t / std::uintptr_t (2^64). */
  const WORD_LIMIT: nat := 0x1_0000_0000_0000_0000

  /** The error kinds of alloc_error.hpp and of the exception classes, as one type. */
  datatype Error =
    | AlignmentError   // alignment_error / alloc_error::alignment_error
    | BadAlloc         // std::bad_alloc / alloc_error::bad_alloc_error
    | OutOfCapacity    // out_of_capacity_error / "out of capacity"
    | OutOfBounds      // out_of_bounds_error
    | Unexpected       // unexpected_error

  /** std::expected<T, error> and "returns or throws". */
  datatype Result<T> = Ok(value: T) | Err(error: Error)

  /** std::size_t addition: the exact sum, less 2^64 when it does not fit. */
  function WordAdd(a: nat, b: nat): (r: nat)
    requires a < WORD_LIMIT && b < WORD_LIMIT
    ensures r < WORD_LIMIT
    ensures r == a + b || r == a + b - WORD_LIMIT
    ensures a + b < WORD_LIMIT ==> r == a + b
  {
    if a + b < WORD_LIMIT then a + b else a + b - WORD_LIMIT
  }

  function Max(a: nat, b: nat): nat
  {
    if a < b then b else a
  }

  /** std::has_single_bit: exactly one bit of n is set. */
  predicate IsPowerOfTwo(n: nat)
    decreases n
  {
    n == 1 || (n >= 2 && n % 2 == 0 && IsPowerOfTwo(n / 2))
  }

  function Pow2(k: nat): (r: nat)
    ensures r >= 1
  {
    if k == 0 then 1 else 2 * Pow2(k - 1)
  }

  /** The recursive test agrees with the textbook definition: n is 2^k for some k. */
  lemma PowerOfTwoIsPow2(n: nat)
    ensures IsPowerOfTwo(n) <==> exists k: nat :: n == Pow2(k)
  {
    if IsPowerOfTwo(n) {
      PowerOfTwoHasExponent(n);
    } else if exists k: nat :: n == Pow2(k) {
      var k: nat :| n == Pow2(k);
      Pow2IsPowerOfTwo(k);
    }
  }

  lemma {:induction false} PowerOfTwoHasExponent(n: nat)
    requires IsPowerOfTwo(n)
    ensures exists k: nat :: n == Pow2(k)
  {
    if n == 1 {
      assert n == Pow2(0);
    } else {
      PowerOfTwoHasExponent(n / 2);
      var k: nat :| n / 2 == Pow2(k);
      assert n == Pow2(k + 1);
    }
  }

  lemma {:induction false} Pow2IsPowerOfTwo(k: nat)
    ensures IsPowerOfTwo(Pow2(k))
  {
    if k > 0 {
      Pow2IsPowerOfTwo(k - 1);
      assert Pow2(k) / 2 == Pow2(k - 1);
    }
  }

  lemma {:induction false} Pow2Add(i: nat, j: nat)
    ensures Pow2(i + j) == Pow2(i) * Pow2(j)
  {
    if i > 0 {
      Pow2Add(i - 1, j);
      assert Pow2(i + j) == 2 * Pow2(i - 1 + j);
    }
  }

  /** Of two powers of two, the larger is a multiple of the smaller, so the
      larger one is a valid alignment for both (pool_allocator.cpp:52). */
  lemma {:induction false} PowerOfTwoDivides(a: nat, b: nat)
    requires IsPowerOfTwo(a) && IsPowerOfTwo(b) && a <= b
    ensures b % a == 0
    decreases b
  {
    if a == 1 {
      DivModUnique(b, 1, b, 0);
    } else if a == b {
      DivModUnique(b, a, 1, 0);
    } else {
      PowerOfTwoDivides(a / 2, b / 2);
      var q := (b / 2) / (a / 2);
      assert b / 2 == q * (a / 2);
      assert b == q * a;
      MultipleMod(q, a);
    }
  }

  lemma MulMonotone(n: nat, a: nat)
    requires n >= 1
    ensures n * a >= a
  {
    assert n * a == (n - 1) * a + a;
  }

  /** Quotient and remainder are unique. */
  lemma DivModUnique(x: nat, a: nat, q: nat, r: nat)
    requires a > 0 && r < a && x == q * a + r
    ensures x / a == q && x % a == r
  {
    var q', r' := x / a, x % a;
    assert x == q' * a + r';
    if q > q' {
      assert (q - q') * a == q * a - q' * a;
      MulMonotone(q - q', a);
    } else if q < q' {
      assert (q' - q) * a == q' * a - q * a;
      MulMonotone(q' - q, a);
    }
  }

  lemma MultipleMod(q: nat, a: nat)
    requires a > 0
    ensures (q * a) % a == 0
  {
    DivModUnique(q * a, a, q, 0);
  }

  /** align_forward_no_check(alignment, value): the smallest multiple of
      `alignment` that is not below `value`, without validating `alignment`. */
  function AlignForwardNoCheck(alignment: nat, value: nat): (r: nat)
    requires IsPowerOfTwo(alignment)
    ensures r % alignment == 0
    ensures value <= r < value + alignment
    decreases value
  {
    if value == 0 then
      MultipleMod(0, alignment);
      0
    else if value <= alignment then
      MultipleMod(1, alignment);
      alignment
    else
      var rest := AlignForwardNoCheck(alignment, value - alignment);
      MultipleMod(1, alignment);
      MultipleSum(alignment, rest, alignment);
      alignment + rest
  }

  /** align_forward(alignment, value) as util_test.cpp pins it down: a
      non-power-of-two alignment (0, 3, 24) is rejected. */
  function AlignForward(alignment: nat, value: nat): (r: Result<nat>)
    ensures r.Err? <==> !IsPowerOfTwo(alignment)
    ensures r.Err? ==> r.error == AlignmentError
    ensures r.Ok? ==> r.value % alignment == 0 && value <= r.value < value + alignment
  {
    if IsPowerOfTwo(alignment) then Ok(AlignForwardNoCheck(alignment, value)) else Err(AlignmentError)
  }

  /** is_aligned(alignment, value) */
  predicate IsAligned(alignment: nat, value: nat)
    requires IsPowerOfTwo(alignment)
  {
    value % alignment == 0
  }

  /** No multiple of the alignment lies between `value` and the result: the
      result is the least aligned value that is not below `value`. */
  lemma {:induction false} AlignForwardIsLeast(alignment: nat, value: nat, m: nat)
    requires IsPowerOfTwo(alignment)
    requires m % alignment == 0 && value <= m
    ensures AlignForwardNoCheck(alignment, value) <= m
    decreases value
  {
    if value == 0 {
    } else if value <= alignment {
      PositiveMultiple(m, alignment);
    } else {
      PositiveMultiple(m, alignment);
      MultipleMod(1, alignment);
      MultipleDiff(m, alignment, alignment);
      AlignForwardIsLeast(alignment, value - alignment, m - alignment);
    }
  }

  /** The result is the only multiple of the alignment in [value, value + alignment). */
  lemma AlignForwardUnique(alignment: nat, value: nat, m: nat)
    requires IsPowerOfTwo(alignment)
    requires m % alignment == 0 && value <= m < value + alignment
    ensures AlignForwardNoCheck(alignment, value) == m
  {
    var r := AlignForwardNoCheck(alignment, value);
    if r < m {
      MultiplesApart(r, m, alignment);
    } else if m < r {
      MultiplesApart(m, r, alignment);
    }
  }

  lemma PositiveMultiple(m: nat, a: nat)
    requires a > 0 && m % a == 0 && m > 0
    ensures m >= a
  {
    assert m == (m / a) * a;
    MulMonotone(m / a, a);
  }

  lemma MultiplesOrdered(x: nat, y: nat, a: nat)
    requires a > 0 && x % a == 0 && y % a == 0 && x <= y
    ensures x / a <= y / a
  {
    assert x == (x / a) * a;
    assert y == (y / a) * a;
    if x / a > y / a {
      assert x - y == (x / a - y / a) * a;
      MulMonotone(x / a - y / a, a);
    }
  }

  /** Two distinct multiples of a lie at least a apart. */
  lemma MultiplesApart(x: nat, y: nat, a: nat)
    requires a > 0 && x % a == 0 && y % a == 0 && x < y
    ensures y - x >= a
  {
    assert x == (x / a) * a;
    assert y == (y / a) * a;
    MultiplesOrdered(x, y, a);
    assert y - x == (y / a - x / a) * a;
    MulMonotone(y / a - x / a, a);
  }

  /** Aligned values are fixed points; an unaligned value moves. */
  lemma AlignForwardFixedPoint(alignment: nat, value: nat)
    requires IsPowerOfTwo(alignment)
    ensures IsAligned(alignment, value) <==> AlignForwardNoCheck(alignment, value) == value
  {
    if IsAligned(alignment, value) {
      AlignForwardIsLeast(alignment, value, value);
    }
  }

  /** Aligning twice is aligning once. */
  lemma AlignForwardIdempotent(alignment: nat, value: nat)
    requires IsPowerOfTwo(alignment)
    ensures AlignForwardNoCheck(alignment, AlignForwardNoCheck(alignment, value))
            == AlignForwardNoCheck(alignment, value)
  {
    AlignForwardFixedPoint(alignment, AlignForwardNoCheck(alignment, value));
  }

  /** Alignment 1 is the identity. */
  lemma AlignForwardByOne(value: nat)
    ensures AlignForwardNoCheck(1, value) == value
  {
  }

  /** Aligning commutes with a shift by an aligned base: the padding needed
      at base + offset depends only on the offset. */
  lemma AlignForwardShift(alignment: nat, base: nat, offset: nat)
    requires IsPowerOfTwo(alignment) && base % alignment == 0
    ensures AlignForwardNoCheck(alignment, base + offset) == base + AlignForwardNoCheck(alignment, offset)
  {
    var r := AlignForwardNoCheck(alignment, offset);
    var s := AlignForwardNoCheck(alignment, base + offset);
    MultipleSum(base, r, alignment);
    AlignForwardIsLeast(alignment, base + offset, base + r);
    assert s - base >= offset;
    MultipleDiff(s, base, alignment);
    AlignForwardIsLeast(alignment, offset, s - base);
  }

  lemma MultipleSum(x: nat, y: nat, a: nat)
    requires a > 0 && x % a == 0 && y % a == 0
    ensures (x + y) % a == 0
  {
    DivModUnique(x + y, a, x / a + y / a, 0);
  }

  lemma MultipleDiff(x: nat, y: nat, a: nat)
    requires a > 0 && x % a == 0 && y % a == 0 && y <= x
    ensures (x - y) % a == 0
  {
    MultiplesOrdered(y, x, a);
    DivModUnique(x - y, a, x / a - y / a, 0);
  }

  /** The larger of two powers of two is a power of two and a multiple of both. */
  lemma MaxOfPowersOfTwo(a: nat, b: nat)
    requires IsPowerOfTwo(a) && IsPowerOfTwo(b)
    ensures IsPowerOfTwo(Max(a, b)) && Max(a, b) % a == 0 && Max(a, b) % b == 0
  {
    PowerOfTwoDivides(a, Max(a, b));
    PowerOfTwoDivides(b, Max(a, b));
  }

  /** Starting g bytes past a g-aligned address, the next multiple of a
      g-aligned alignment e is at most e bytes past that address. */
  lemma AlignForwardPastGap(e: nat, g: nat, start: nat)
    requires IsPowerOfTwo(e) && g > 0 && e % g == 0 && start % g == 0
    ensures AlignForwardNoCheck(e, start + g) <= start + e
  {
    var below, rem := SplitAtMultiple(start, e);
    MultipleTransitive(below, e, g);
    MultipleDiff(start, below, g);
    MultiplesApart(rem, e, g);
    MultipleMod(1, e);
    MultipleSum(below, e, e);
    AlignForwardIsLeast(e, start + g, below + e);
  }

  /** x splits into a multiple of a and a remainder below a. */
  lemma SplitAtMultiple(x: nat, a: nat) returns (below: nat, rem: nat)
    requires a > 0
    ensures x == below + rem && rem < a && below % a == 0
  {
    below, rem := (x / a) * a, x % a;
    MultipleMod(x / a, a);
  }

  /** A multiple of the larger of two powers of two is a multiple of both. */
  lemma MultipleOfMax(m: nat, a: nat, b: nat)
    requires IsPowerOfTwo(a) && IsPowerOfTwo(b) && m % Max(a, b) == 0
    ensures m % a == 0 && m % b == 0
  {
    var big := Max(a, b);
    PowerOfTwoDivides(a, big);
    PowerOfTwoDivides(b, big);
    MultipleTransitive(m, big, a);
    MultipleTransitive(m, big, b);
  }

  lemma MultipleTransitive(m: nat, big: nat, small: nat)
    requires small > 0 && big > 0 && m % big == 0 && big % small == 0
    ensures m % small == 0
  {
    assert m == (m / big) * big;
    assert big == (big / small) * small;
    assert m == ((m / big) * (big / small)) * small;
    MultipleMod((m / big) * (big / small), small);
  }

  /** The small cases of the table in util_test.cpp. */
  lemma AlignForwardTable()
    ensures AlignForward(1, 0) == Ok(0) && AlignForward(1, 1) == Ok(1) && AlignForward(1, 2) == Ok(2)
    ensures AlignForward(2, 1) == Ok(2) && AlignForward(2, 2) == Ok(2)
    ensures AlignForward(2, 3) == Ok(4) && AlignForward(2, 4) == Ok(4)
    ensures AlignForward(8, 20) == Ok(24) && AlignForward(8, 21) == Ok(24)
    ensures AlignForward(8, 24) == Ok(24) && AlignForward(8, 25) == Ok(32)
  {
  }

  /** Around a power-of-two alignment p: p - 1 and p go to p, p + 1 goes to 2p. */
  lemma AlignForwardAroundAlignment(p: nat)
    requires IsPowerOfTwo(p) && p > 1
    ensures AlignForward(p, p - 1) == Ok(p)
    ensures AlignForward(p, p) == Ok(p)
    ensures AlignForward(p, p + 1) == Ok(2 * p)
  {
    assert AlignForwardNoCheck(p, 1) == p;
  }

  lemma Pow2Of20()
    ensures Pow2(20) == 0x10_0000
  {
    Pow2Add(10, 10);
  }

  lemma Pow2Of60()
    ensures Pow2(60) == 0x1000_0000_0000_0000
  {
    Pow2Of20();
    Pow2Add(20, 20);
    Pow2Add(40, 20);
  }

  /** The cases of util_test.cpp next to 2^60, where a wrapping or
      truncating implementation would go wrong; every result stays below 2^64. */
  lemma AlignForwardNear2To60()
    ensures AlignForward(Pow2(60), Pow2(60) - 1) == Ok(Pow2(60))
    ensures AlignForward(Pow2(60), Pow2(60)) == Ok(Pow2(60))
    ensures AlignForward(Pow2(60), Pow2(60) + 1) == Ok(Pow2(61))
    ensures Pow2(60) == 0x1000_0000_0000_0000 && Pow2(61) < WORD_LIMIT
  {
    Pow2Of60();
    Pow2IsPowerOfTwo(60);
    AlignForwardAroundAlignment(Pow2(60));
  }

  /** Alignments 0, 3 and 24 are refused with an alignment error. */
  lemma AlignForwardRejects(value: nat)
    ensures AlignForward(0, value) == Err(AlignmentError)
    ensures AlignForward(3, value) == Err(AlignmentError)
    ensures AlignForward(24, value) == Err(AlignmentError)
  {
  }

  /** No wrap-around: whenever value + alignment fits in a size_t, so does the result. */
  lemma AlignForwardFitsWord(alignment: nat, value: nat)
    requires IsPowerOfTwo(alignment) && value + alignment <= WORD_LIMIT
    ensures AlignForwardNoCheck(alignment, value) < WORD_LIMIT
  {
  }
}
