/** The saturating steps both scripts use for movement keys:
    `max(lo, p - step)` and `min(hi, p + step)`. Each is one-sided: the
    decrease only guards the lower bound, the increase only the upper. */
module Saturation {

  /** `max(lo, p - step)`. */
  function Down(p: int, step: nat, lo: int): (r: int)
    ensures lo <= r
    ensures lo <= p ==> r <= p
    ensures lo <= p - step ==> r == p - step
    ensures p - step < lo ==> r == lo
  {
    if p - step > lo then p - step else lo
  }

  /** `min(hi, p + step)`. */
  function Up(p: int, step: nat, hi: int): (r: int)
    ensures r <= hi
    ensures p <= hi ==> p <= r
    ensures p + step <= hi ==> r == p + step
    ensures hi < p + step ==> r == hi
  {
    if p + step < hi then p + step else hi
  }

  /** A step of either kind from a position inside `[lo, hi]` stays inside,
      moves by at most `step`, and stops exactly at the bound it would
      otherwise cross. */
  lemma StepsStayInRange(p: int, step: nat, lo: int, hi: int)
    requires lo <= p <= hi
    ensures lo <= Down(p, step, lo) <= hi && lo <= Up(p, step, hi) <= hi
    ensures p - step <= Down(p, step, lo) <= p && p <= Up(p, step, hi) <= p + step
    ensures p == lo ==> Down(p, step, lo) == lo
    ensures p == hi ==> Up(p, step, hi) == hi
  {
  }
}
