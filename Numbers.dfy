/** Numeric helpers shared by the controllers: the `max(lo, min(hi, x))` clamp
    the source writes out at every safety limit, and Python's `int()` of a
    float, which truncates toward zero. */
module Numbers {

  /** `max(lo, min(hi, x))`. */
  function Clamp(lo: real, hi: real, x: real): (r: real)
    requires lo <= hi
    ensures lo <= r <= hi
    ensures lo <= x <= hi ==> r == x
    ensures x < lo ==> r == lo
    ensures hi < x ==> r == hi
  {
    if hi < x then hi else if x < lo then lo else x
  }

  /** Clamping twice changes nothing more: the clamp is idempotent. */
  lemma ClampIdempotent(lo: real, hi: real, x: real)
    requires lo <= hi
    ensures Clamp(lo, hi, Clamp(lo, hi, x)) == Clamp(lo, hi, x)
  {
  }

  /** No value in [lo, hi] is closer to x than its clamp. */
  lemma ClampIsNearest(lo: real, hi: real, x: real, y: real)
    requires lo <= hi && lo <= y <= hi
    ensures (if x >= Clamp(lo, hi, x) then x - Clamp(lo, hi, x) else Clamp(lo, hi, x) - x)
         <= (if x >= y then x - y else y - x)
  {
  }

  /** `int(x)` on a float: the integer part, truncated toward zero. */
  function Trunc(x: real): (n: int)
    ensures x >= 0.0 ==> n >= 0 && n as real <= x < n as real + 1.0
    ensures x < 0.0 ==> n <= 0 && n as real - 1.0 < x <= n as real
  {
    if x >= 0.0 then x.Floor else -((-x).Floor)
  }
}
