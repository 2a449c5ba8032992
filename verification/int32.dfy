/**
 The 32-bit signed integer arithmetic of C#, as the scripts use it: unchecked
 addition that wraps around, and Unity's integer `Mathf.Clamp`.
 */
module Int32 {

  const Min: int := -0x8000_0000
  const Max: int := 0x7FFF_FFFF
  const Modulus: int := 0x1_0000_0000

  predicate InRange(x: int) {
    Min <= x <= Max
  }

  /** The value an unchecked C# `int` expression has when the exact result is `x`. */
  function Wrap(x: int): (r: int)
    ensures InRange(r)
    ensures (x - r) % Modulus == 0
    ensures InRange(x) ==> r == x
  {
    (x - Min) % Modulus + Min
  }

  /**
   `Mathf.Clamp(value, lo, hi)` on integers: the lower bound is compared first,
   so when `lo > hi` a value below `lo` still yields `lo`.
   */
  function Clamp(value: int, lo: int, hi: int): (r: int)
    ensures lo <= hi ==> lo <= r <= hi
    ensures lo <= value <= hi ==> r == value
    ensures value < lo ==> r == lo
    ensures lo <= value && hi < value ==> r == hi
  {
    if value < lo then lo else if value > hi then hi else value
  }

  /** Clamping a clamped value changes nothing. */
  lemma ClampIdempotent(value: int, lo: int, hi: int)
    requires lo <= hi
    ensures Clamp(Clamp(value, lo, hi), lo, hi) == Clamp(value, lo, hi)
  {
  }
}
