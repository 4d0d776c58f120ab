/**
 Exact-real stand-ins for the few numeric primitives the projection uses:
 `min`, `max`, `x ** n` with a natural exponent, and Python's `int()` on a
 float, which truncates toward zero. All money is an exact `real` number of
 yen; floating-point rounding is not modelled.
 */
module Money {

  /** The yearly NISA allowance shared by the regular contribution and the
      surplus sweep: 3,600,000 yen. */
  const NisaAnnualLimit: real := 3600000.0

  function Min(a: real, b: real): real
  {
    if a <= b then a else b
  }

  function Max(a: real, b: real): real
  {
    if a >= b then a else b
  }

  /** `r ** n` for a natural exponent. */
  function Pow(r: real, n: nat): (p: real)
    ensures r > 0.0 ==> p > 0.0
    ensures r >= 1.0 ==> p >= 1.0
    ensures 0.0 < r <= 1.0 ==> p <= 1.0
  {
    if n == 0 then 1.0 else r * Pow(r, n - 1)
  }

  /** One more factor of the base raises the exponent by one. */
  lemma {:induction false} PowSucc(r: real, n: nat)
    ensures Pow(r, n + 1) == Pow(r, n) * r
  {
  }

  /** `t` is `x` with its fractional part dropped toward zero, which is what
      Python's `int()` does to a float. */
  ghost predicate IsTruncation(t: int, x: real)
  {
    if x >= 0.0 then t as real <= x < t as real + 1.0
    else t as real - 1.0 < x <= t as real
  }

  /** At most one integer is the truncation of a given real. */
  lemma TruncationUnique(t: int, u: int, x: real)
    requires IsTruncation(t, x) && IsTruncation(u, x)
    ensures t == u
  {
  }

  /** Python's `int()` applied to a float. */
  function Trunc(x: real): (t: int)
  {
    if x >= 0.0 then x.Floor else -((-x).Floor)
  }

  /** `Trunc` drops the fractional part toward zero and keeps the sign. */
  lemma TruncIsTruncation(x: real)
    ensures IsTruncation(Trunc(x), x)
    ensures x >= 0.0 ==> Trunc(x) >= 0
  {
  }

  /** A truncated value is negative exactly when the real was at most -1:
      anything strictly between -1 and 0 truncates to 0. */
  lemma TruncNegativeIff(x: real)
    ensures Trunc(x) < 0 <==> x <= -1.0
  {
  }

  /** Truncating four parts separately and the sum once differ by less than 5,
      so by at most 4 yen. */
  lemma TruncOfSumClose(a: real, b: real, c: real, d: real)
    ensures -4 <= Trunc(a + b + c + d) - (Trunc(a) + Trunc(b) + Trunc(c) + Trunc(d)) <= 4
  {
  }
}
