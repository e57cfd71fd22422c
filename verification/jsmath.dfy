/** The JavaScript number operations the controller uses, on exact reals. */
module JsMath {

  /** `Math.PI`, as the decimal the double prints as. */
  const Pi: real := 3.141592653589793

  function Abs(x: real): (r: real)
    ensures r >= 0.0
    ensures r == x || r == -x
  {
    if x < 0.0 then -x else x
  }

  function Max(a: real, b: real): real {
    if a < b then b else a
  }

  function Min(a: real, b: real): real {
    if a < b then a else b
  }

  /** `Math.max(lo, Math.min(hi, x))`: pins `x` into `[lo, hi]`, moving it
      only when it lies outside. */
  function Clamp(lo: real, hi: real, x: real): (r: real)
    requires lo <= hi
    ensures lo <= r <= hi
    ensures lo <= x <= hi ==> r == x
    ensures x < lo ==> r == lo
    ensures hi < x ==> r == hi
  {
    Max(lo, Min(hi, x))
  }

  lemma ClampIdempotent(lo: real, hi: real, x: real)
    requires lo <= hi
    ensures Clamp(lo, hi, Clamp(lo, hi, x)) == Clamp(lo, hi, x)
  {
  }

  /** Rounding toward zero, the integer part JavaScript's `%` removes. */
  function Trunc(x: real): (r: int)
    ensures 0.0 <= x ==> r as real <= x < r as real + 1.0
    ensures x < 0.0 ==> r as real - 1.0 < x <= r as real
  {
    if x >= 0.0 then x.Floor else -((-x).Floor)
  }

  /** JavaScript's `x % 1`: the remainder keeps the sign of `x` (truncating
      division), unlike Dafny's Euclidean `%`. */
  function Rem1(x: real): (r: real)
    ensures 0.0 <= x ==> 0.0 <= r < 1.0
    ensures x < 0.0 ==> -1.0 < r <= 0.0
    ensures (x - r).Floor as real == x - r
  {
    x - Trunc(x) as real
  }

  /** Shifting a non-negative argument by a whole turn does not change `x % 1`. */
  lemma Rem1Periodic(x: real)
    requires 0.0 <= x
    ensures Rem1(x + 1.0) == Rem1(x)
  {
  }

  /** On `[0, 2)`, `x % 1` is `x` below one and `x - 1` from one on. */
  lemma Rem1BelowTwo(x: real)
    ensures 0.0 <= x < 1.0 ==> Rem1(x) == x
    ensures 1.0 <= x < 2.0 ==> Rem1(x) == x - 1.0
  {
  }

  /** `Math.pow(s, n)` for a whole exponent. */
  function Pow(s: real, n: nat): real {
    if n == 0 then 1.0 else s * Pow(s, n - 1)
  }

  lemma MulNonNegative(a: real, b: real)
    requires 0.0 <= a && 0.0 <= b
    ensures 0.0 <= a * b
  {
  }

  /** A factor in `[0, 1]` does not enlarge a non-negative number. */
  lemma MulShrinks(a: real, b: real)
    requires 0.0 <= a <= 1.0 && 0.0 <= b
    ensures 0.0 <= a * b <= b
    ensures b <= 1.0 ==> a * b <= a
  {
  }

  lemma MulZero(a: real, b: real)
    ensures a * b == 0.0 <==> a == 0.0 || b == 0.0
  {
  }

  /** Negating the base flips the sign of odd powers only. */
  lemma {:induction false} PowNegate(s: real, n: nat)
    ensures Pow(-s, n) == if n % 2 == 0 then Pow(s, n) else -Pow(s, n)
  {
    if n > 0 {
      PowNegate(s, n - 1);
    }
  }

  lemma {:induction false} PowNonNegative(a: real, n: nat)
    requires 0.0 <= a
    ensures 0.0 <= Pow(a, n)
  {
    if n > 0 {
      PowNonNegative(a, n - 1);
      MulNonNegative(a, Pow(a, n - 1));
    }
  }

  /** Powers of a base in `[0, 1]` stay in `[0, 1]`; they reach one only when the base is one. */
  lemma {:induction false} PowUnitRange(a: real, n: nat)
    requires 0.0 <= a <= 1.0
    ensures 0.0 <= Pow(a, n) <= 1.0
    ensures 0 < n && a < 1.0 ==> Pow(a, n) < 1.0
    ensures a == 1.0 ==> Pow(a, n) == 1.0
  {
    if n > 0 {
      PowUnitRange(a, n - 1);
      MulShrinks(a, Pow(a, n - 1));
    }
  }

  /** A positive power is zero exactly when its base is. */
  lemma {:induction false} PowZero(s: real, n: nat)
    requires 0 < n
    ensures Pow(s, n) == 0.0 <==> s == 0.0
  {
    MulZero(s, Pow(s, n - 1));
    if n > 1 {
      PowZero(s, n - 1);
    }
  }
}
