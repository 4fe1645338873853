/**
 * Money as integer paise (1 rupee = 100 paise). The source computes with floating-point
 * rupees and rounds with `Math.round(x * 100) / 100`; on exact paise that is rounding a
 * rational amount of paise half up to the nearest paisa.
 */
module Money {

  /** An amount of money in paise. */
  type Paise = int

  /** `Math.round(n / d)`: the nearest integer to `n / d`, a half rounded up (towards +infinity). */
  function RoundHalfUp(n: int, d: int): (r: int)
    requires d > 0
    ensures 2 * d * r - d <= 2 * n < 2 * d * r + d
  {
    var q := (2 * n + d) / (2 * d);
    var m := (2 * n + d) % (2 * d);
    assert 2 * n + d == 2 * d * q + m && 0 <= m < 2 * d;
    q
  }

  /** The nearest-with-halves-up integer is the only one within half a unit. */
  lemma RoundHalfUpUnique(n: int, d: int, r: int)
    requires d > 0
    requires 2 * d * r - d <= 2 * n < 2 * d * r + d
    ensures r == RoundHalfUp(n, d)
  {
    var q := RoundHalfUp(n, d);
    assert 2 * d * (r - q) == 2 * d * r - 2 * d * q;
    assert 2 * d * (q - r) == 2 * d * q - 2 * d * r;
    BelowOne(2 * d, r - q);
    BelowOne(2 * d, q - r);
  }

  lemma BelowOne(a: int, k: int)
    requires a > 0 && a * k < a
    ensures k < 1
  {
    if k >= 1 {
      MulMonotone(a, 1, k);
    }
  }

  lemma MulMonotone(k: nat, a: int, b: int)
    requires a <= b
    ensures k * a <= k * b
  {
  }

  /** Rounding an amount that is already whole changes nothing. */
  lemma RoundHalfUpWhole(n: int, d: int)
    requires d > 0
    ensures RoundHalfUp(n * d, d) == n
  {
    RoundHalfUpUnique(n * d, d, n);
  }

  /** `Math.round(amount * (num / den) * 100) / 100` with `amount` in paise: the share `num / den` of the amount, to the nearest paisa. */
  function Share(amount: Paise, num: nat, den: nat): (r: Paise)
    requires den > 0
    ensures 2 * den * r - den <= 2 * amount * num < 2 * den * r + den
  {
    RoundHalfUp(amount * num, den)
  }

  /** A nearest whole quotient of `x` by `d` lies between any whole bounds of `x / d`. */
  lemma RoundedBetween(x: int, d: nat, lo: int, hi: int, r: int)
    requires d > 0
    requires 2 * d * r - d <= 2 * x < 2 * d * r + d
    requires d * lo <= x <= d * hi
    ensures lo <= r <= hi
  {
    assert 2 * d * r == 2 * (d * r);
    assert d * (lo - 1) == d * lo - d;
    assert d * (hi + 1) == d * hi + d;
    if r < lo {
      MulMonotone(d, r, lo - 1);
    }
    if r > hi {
      MulMonotone(d, hi + 1, r);
    }
  }

  /** A share of a non-negative amount at a rate of at most one is between zero and the amount. */
  lemma ShareBounds(amount: Paise, num: nat, den: nat)
    requires den > 0 && num <= den && amount >= 0
    ensures 0 <= Share(amount, num, den) <= amount
  {
    MulMonotone(amount, 0, num);
    MulMonotone(amount, num, den);
    RoundedBetween(amount * num, den, 0, amount, Share(amount, num, den));
  }
}
