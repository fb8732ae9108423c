/** Facts about integer division and remainder used by both components. */
module Arith {

  /** Dafny's quotient and remainder of a by b are the unique q, r
      with a == b * q + r and 0 <= r < b. */
  lemma DivModUnique(a: int, b: int, q: int, r: int)
    requires b > 0 && 0 <= r < b && a == b * q + r
    ensures a / b == q && a % b == r
  {
    var q', r' := a / b, a % b;
    var t := q - q';
    assert b * q == b * q' + b * t;
    MulAwayFromZero(b, t);
  }

  /** A positive b times a non-zero integer t is at least b away from zero. */
  lemma {:induction false} MulAwayFromZero(b: int, t: int)
    requires b > 0
    ensures t >= 1 ==> b * t >= b
    ensures t <= -1 ==> b * t <= -b
    decreases if t < 0 then -t else t
  {
    if t > 1 {
      MulAwayFromZero(b, t - 1);
      assert b * t == b * (t - 1) + b;
    } else if t < -1 {
      MulAwayFromZero(b, t + 1);
      assert b * t == b * (t + 1) - b;
    }
  }

  /** One step of the enumeration index advances the remainder by one, wrapping at b. */
  lemma DivModStep(m: nat, b: int)
    requires b > 0
    ensures m % b + 1 < b ==> (m + 1) / b == m / b && (m + 1) % b == m % b + 1
    ensures m % b + 1 == b ==> (m + 1) / b == m / b + 1 && (m + 1) % b == 0
  {
    if m % b + 1 < b {
      DivModUnique(m + 1, b, m / b, m % b + 1);
    } else {
      DivModUnique(m + 1, b, m / b + 1, 0);
    }
  }
}
