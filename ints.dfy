/// Integer helpers that reproduce, on Dafny's unbounded integers, the
/// arithmetic the firmware (C) and the camera script (Python) rely on:
/// division that truncates toward zero, clamping, and the wrap-around of the
/// firmware's `uint32_t` millisecond clock.
module Ints {

  const TwoTo32: int := 0x1_0000_0000

  /// A value of C's `uint32_t`, such as a reading of the millisecond clock.
  type U32 = x: int | 0 <= x < TwoTo32

  function Abs(x: int): (r: nat)
    ensures r == x || r == -x
  {
    if x < 0 then -x else x
  }

  /// C's `/` on `int`, and Python's `int()` of a true quotient: the quotient
  /// truncated toward zero (Dafny's own `/` is Euclidean).
  function TruncDiv(a: int, b: int): (q: int)
    requires b > 0
    ensures Abs(q) * b <= Abs(a) < (Abs(q) + 1) * b
    ensures q > 0 ==> a > 0
    ensures q < 0 ==> a < 0
  {
    if a >= 0 then DivBounds(a, b); a / b
    else DivBounds(-a, b); -((-a) / b)
  }

  lemma DivBounds(a: nat, b: int)
    requires b > 0
    ensures 0 <= a / b
    ensures (a / b) * b <= a < (a / b + 1) * b
  {
    var q, r := a / b, a % b;
    assert a == q * b + r && 0 <= r < b;
    assert (q + 1) * b == q * b + b;
  }

  /// Truncating division commutes with negation, unlike Euclidean division.
  lemma TruncDivNeg(a: int, b: int)
    requires b > 0
    ensures TruncDiv(-a, b) == -TruncDiv(a, b)
  {
  }

  lemma TruncDivMonotone(a1: int, a2: int, b: int)
    requires b > 0 && a1 <= a2
    ensures TruncDiv(a1, b) <= TruncDiv(a2, b)
  {
    if 0 <= a1 {
      DivMonotone(a1, a2, b);
    } else if a2 < 0 {
      DivMonotone(-a2, -a1, b);
    }
  }

  lemma DivMonotone(a1: int, a2: int, b: int)
    requires b > 0 && 0 <= a1 <= a2
    ensures a1 / b <= a2 / b
  {
    if a1 / b > a2 / b {
      MulMonotone(a2 / b + 1, a1 / b, b);
      assert false;
    }
  }

  lemma MulMonotone(x: int, y: int, b: int)
    requires b > 0 && x <= y
    ensures x * b <= y * b
  {
  }

  function Clamp(x: int, lo: int, hi: int): (r: int)
    requires lo <= hi
    ensures lo <= r <= hi
    ensures lo <= x <= hi ==> r == x
    ensures x < lo ==> r == lo
    ensures hi < x ==> r == hi
  {
    if x > hi then hi else if x < lo then lo else x
  }

  /// `a - b` on `uint32_t`: the milliseconds elapsed from `b` to `a` across
  /// at most one wrap of the clock.
  function Sub32(a: U32, b: U32): (r: U32)
    ensures b <= a ==> r == a - b
    ensures a < b ==> r == a - b + TwoTo32
  {
    (a - b) % TwoTo32
  }

  /// `a + b` on `uint32_t`.
  function Add32(a: U32, b: U32): (r: U32)
    ensures a + b < TwoTo32 ==> r == a + b
    ensures TwoTo32 <= a + b ==> r == a + b - TwoTo32
  {
    (a + b) % TwoTo32
  }
}
