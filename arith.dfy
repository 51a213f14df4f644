/** Small facts about integer multiplication that the solver does not find by itself. */
module Arith {

  lemma MulShift(q: int, n: int, d: int)
    ensures (q + d) * n == q * n + d * n
  {}

  lemma MulSign(d: int, n: int)
    requires n > 0
    ensures d >= 1 ==> d * n >= n
    ensures d <= 0 ==> d * n <= 0
    ensures d <= -1 ==> d * n <= -n
  {}
}
