/**
 * Integer and real helpers of the ping-pong delay unit: the C++ float-to-int
 * cast and remainder operator written out over unbounded numbers, the buffer
 * modulo, the two `Corresponding` parameter mappings and the cursor step.
 */
module UnitArith {

  /**
   * The C++ `(int)` conversion of a float, on the non-negative values the
   * unit applies it to, where truncation toward zero is rounding down.
   */
  function CastToInt(x: real): (r: int)
    requires x >= 0.0
    ensures 0 <= r && r as real <= x < r as real + 1.0
  {
    x.Floor
  }

  /**
   * The C++ `%` operator on `int`: `a` minus the remainder is a multiple of
   * `n`, and the remainder takes the sign of `a` and is smaller than `n` in
   * magnitude.
   */
  function CRem(a: int, n: int): (r: int)
    requires n > 0
    ensures (a - r) % n == 0
    ensures a >= 0 ==> 0 <= r < n
    ensures a < 0 ==> -n < r <= 0
  {
    if a >= 0 then
      ModOfMultiple(a - a % n, n, a / n, 0);
      a % n
    else
      ModOfMultiple(a + (-a) % n, n, -((-a) / n), 0);
      -((-a) % n)
  }

  lemma MulNonNegativeReal(a: real, b: real)
    requires a >= 0.0 && b >= 0.0
    ensures a * b >= 0.0
  {
  }

  lemma MulNonNegative(a: int, b: int)
    requires a >= 0 && b >= 0
    ensures a * b >= 0
  {
  }

  /** `a % n` is the unique `r` in `[0, n)` that differs from `a` by a multiple of `n`. */
  lemma ModOfMultiple(a: int, n: int, q: int, r: int)
    requires n > 0 && 0 <= r < n && a == q * n + r
    ensures a % n == r
  {
    var q', r' := a / n, a % n;
    var d := q - q';
    assert d * n == r' - r;
    if d > 0 {
      MulNonNegative(d - 1, n);
    } else if d < 0 {
      MulNonNegative(-d - 1, n);
    }
  }

  /**
   * `BufferModulo` of the unit for a buffer of `size` slots, written as the
   * source writes it with two truncating remainders: the result is a valid
   * buffer index, and it is the mathematical residue of `cursorIndex`, also
   * for a negative index.
   */
  function BufferModulo(cursorIndex: int, size: int): (r: int)
    requires size > 0
    ensures 0 <= r < size
    ensures r == cursorIndex % size
  {
    var inner := CRem(cursorIndex, size);
    var r := CRem(inner + size, size);
    assert r == cursorIndex % size by {
      var q := cursorIndex / size;
      var m := cursorIndex % size;
      if cursorIndex >= 0 {
        ModOfMultiple(inner + size, size, 1, m);
      } else {
        var k := (-cursorIndex) / size;
        var j := (-cursorIndex) % size;
        assert -cursorIndex == k * size + j;
        if j == 0 {
          ModOfMultiple(inner + size, size, 1, 0);
          ModOfMultiple(cursorIndex, size, -k, 0);
        } else {
          ModOfMultiple(inner + size, size, 0, size - j);
          ModOfMultiple(cursorIndex, size, -k - 1, size - j);
        }
      }
    }
    r
  }

  /** Stepping `d` slots back from slot `c` and `d` slots forward again returns to `c`. */
  lemma ResidueOfStepBack(c: int, d: int, n: int)
    requires n > 0 && 0 <= c < n
    ensures ((c - d) % n + d) % n == c
  {
    var a := c - d;
    var q, r := a / n, a % n;
    assert a == q * n + r;
    assert r + d == (-q) * n + c;
    ModOfMultiple(r + d, n, -q, c);
  }

  /**
   * The integer `Corresponding`: maps a parameter in [0, 1] onto the closed
   * integer interval [min, max], one equal-width bucket per integer, with the
   * exact test `param == 1` giving the closed upper bound.
   */
  function CorrespondingInt(param: real, min: int, max: int): int
    requires 0.0 <= param <= 1.0 && 0 <= min <= max
  {
    if param == 1.0 then max
    else
      var range := max - min + 1;
      MulNonNegativeReal(param, range as real);
      CastToInt(param * range as real + min as real)
  }

  /** The real `Corresponding`: linear interpolation from [0, 1] onto [min, max]. */
  function CorrespondingReal(param: real, min: real, max: real): real
  {
    var range := max - min;
    range * param + min
  }

  /** `IncrementBufferCursor` as a function: the cursor moves on one slot and wraps from the last slot to 0. */
  function NextCursor(cursor: int, size: int): int
  {
    if cursor != size - 1 then cursor + 1 else 0
  }

  // ---------------------------------------------------------------------
  // Properties of the integer mapping

  /** A fraction in [0, 1) of a positive integer `k`, rounded down, is an integer in [0, k). */
  lemma BucketBelow(p: real, k: int)
    requires 0.0 <= p < 1.0 && k > 0
    ensures 0 <= (p * k as real).Floor < k
  {
    var x := p * k as real;
    assert 0.0 <= x < k as real;
  }

  /** Adding an integer commutes with rounding down. */
  lemma FloorShift(x: real, m: int)
    ensures (x + m as real).Floor == x.Floor + m
  {
  }

  /** Below 1 the integer mapping is the bucket number plus `min`. */
  lemma CorrespondingIntBelowOne(param: real, min: int, max: int)
    requires 0.0 <= param < 1.0
    requires 0 <= min <= max
    ensures CorrespondingInt(param, min, max) == (param * (max - min + 1) as real).Floor + min
    ensures min <= CorrespondingInt(param, min, max) <= max
  {
    BucketBelow(param, max - min + 1);
    FloorShift(param * (max - min + 1) as real, min);
  }

  /** Every result lies in the closed interval, and the upper bound is hit exactly at 1. */
  lemma CorrespondingIntInRange(param: real, min: int, max: int)
    requires 0.0 <= param <= 1.0
    requires 0 <= min <= max
    ensures min <= CorrespondingInt(param, min, max) <= max
    ensures param == 1.0 ==> CorrespondingInt(param, min, max) == max
    ensures param == 0.0 ==> CorrespondingInt(param, min, max) == min
  {
    if param < 1.0 {
      CorrespondingIntBelowOne(param, min, max);
    }
  }

  /** Larger parameters never map to smaller integers. */
  lemma CorrespondingIntMonotone(p: real, p': real, min: int, max: int)
    requires 0.0 <= p <= p' <= 1.0
    requires 0 <= min <= max
    ensures CorrespondingInt(p, min, max) <= CorrespondingInt(p', min, max)
  {
    CorrespondingIntInRange(p, min, max);
    if p' < 1.0 {
      var range := (max - min + 1) as real;
      MulNonNegativeReal(p' - p, range);
      assert p' * range == p * range + (p' - p) * range;
      CorrespondingIntBelowOne(p, min, max);
      CorrespondingIntBelowOne(p', min, max);
    }
  }

  /** Every integer of [min, max] is the image of the lower edge of its bucket. */
  lemma CorrespondingIntOnto(k: int, min: int, max: int)
    requires 0 <= min <= k <= max
    ensures var p := (k - min) as real / (max - min + 1) as real;
      0.0 <= p < 1.0 && CorrespondingInt(p, min, max) == k
  {
    var range := (max - min + 1) as real;
    var p := (k - min) as real / range;
    assert p * range == (k - min) as real;
    assert p < 1.0;
    CorrespondingIntBelowOne(p, min, max);
  }

  // ---------------------------------------------------------------------
  // Properties of the real mapping

  /** The real mapping meets both ends of the interval and is monotone in between. */
  lemma CorrespondingRealEnds(min: real, max: real)
    ensures CorrespondingReal(0.0, min, max) == min
    ensures CorrespondingReal(1.0, min, max) == max
  {
  }

  lemma CorrespondingRealMonotone(p: real, p': real, min: real, max: real)
    requires p <= p' && min <= max
    ensures CorrespondingReal(p, min, max) <= CorrespondingReal(p', min, max)
  {
    MulNonNegativeReal(max - min, p' - p);
    assert (max - min) * p' == (max - min) * p + (max - min) * (p' - p);
  }

  lemma CorrespondingRealInRange(p: real, min: real, max: real)
    requires 0.0 <= p <= 1.0 && min <= max
    ensures min <= CorrespondingReal(p, min, max) <= max
  {
    CorrespondingRealMonotone(0.0, p, min, max);
    CorrespondingRealMonotone(p, 1.0, min, max);
  }

  // ---------------------------------------------------------------------
  // Properties of the cursor step

  /** The cursor step keeps the cursor a valid index and is the successor modulo the size. */
  lemma NextCursorIsSuccessorMod(cursor: int, size: int)
    requires 0 <= cursor < size
    ensures 0 <= NextCursor(cursor, size) < size
    ensures NextCursor(cursor, size) == (cursor + 1) % size
  {
    if cursor == size - 1 {
      ModOfMultiple(cursor + 1, size, 1, 0);
    } else {
      ModOfMultiple(cursor + 1, size, 0, cursor + 1);
    }
  }

  /** Stepping from the residue of `a` gives the residue of `a + 1`. */
  lemma NextCursorOfResidue(a: int, size: int)
    requires size > 0
    ensures NextCursor(a % size, size) == (a + 1) % size
  {
    var q, r := a / size, a % size;
    NextCursorIsSuccessorMod(r, size);
    if r == size - 1 {
      ModOfMultiple(a + 1, size, q + 1, 0);
    } else {
      ModOfMultiple(a + 1, size, q, r + 1);
    }
  }
}
