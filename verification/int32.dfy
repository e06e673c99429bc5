/** Signed 32-bit wrap-around, as the JavaScript bitwise operators apply it
    (the ECMAScript ToInt32 conversion) to exact integers. */
module Int32 {

  const TwoTo31: int := 0x8000_0000
  const TwoTo32: int := 0x1_0000_0000

  predicate InRange(x: int) {
    -TwoTo31 <= x < TwoTo31
  }

  /** The unique value of the signed 32-bit range congruent to `x` modulo 2^32. */
  function ToInt32(x: int): (r: int)
    ensures InRange(r)
    ensures (x - r) % TwoTo32 == 0
    ensures InRange(x) ==> r == x
  {
    (x + TwoTo31) % TwoTo32 - TwoTo31
  }

  /** Two integers congruent modulo 2^32 wrap to the same 32-bit value. */
  lemma ToInt32Congruent(a: int, b: int)
    requires (a - b) % TwoTo32 == 0
    ensures ToInt32(a) == ToInt32(b)
  {
  }
}
