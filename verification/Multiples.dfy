/** Whole multiples of an amount, and the real arithmetic the money modules share. */
module Multiples {

  lemma {:induction false} Distribute(x: real, y: real, z: real)
    ensures (x + y) * z == x * z + y * z
  {
  }

  lemma {:induction false} Scale(x: real, y: real, k: real)
    requires x <= y && k >= 0.0
    ensures x * k <= y * k
  {
  }

  // ------------------------------------------- whole multiples of an amount

  /** An amount taken a whole number of times; see TimesIsProduct. */
  function Times(n: int, x: real): real
    decreases if n >= 0 then n else -n
  {
    if n == 0 then 0.0 else if n > 0 then x + Times(n - 1, x) else Times(n + 1, x) - x
  }

  lemma {:induction false} TimesIsProduct(n: int, x: real)
    ensures Times(n, x) == n as real * x
    decreases if n >= 0 then n else -n
  {
    if n > 0 {
      TimesIsProduct(n - 1, x);
    } else if n < 0 {
      TimesIsProduct(n + 1, x);
    }
  }

  lemma {:induction false} TimesAddsCounts(m: int, n: int, x: real)
    ensures Times(m + n, x) == Times(m, x) + Times(n, x)
    decreases if n >= 0 then n else -n
  {
    if n > 0 {
      TimesAddsCounts(m, n - 1, x);
    } else if n < 0 {
      TimesAddsCounts(m, n + 1, x);
    }
  }

  lemma {:induction false} TimesAddsAmounts(n: int, x: real, y: real)
    ensures Times(n, x + y) == Times(n, x) + Times(n, y)
    ensures Times(n, x - y) == Times(n, x) - Times(n, y)
    decreases if n >= 0 then n else -n
  {
    if n > 0 {
      TimesAddsAmounts(n - 1, x, y);
    } else if n < 0 {
      TimesAddsAmounts(n + 1, x, y);
    }
  }

  lemma {:induction false} TimesNegates(n: int, x: real)
    ensures Times(-n, x) == -Times(n, x) == Times(n, -x)
    decreases if n >= 0 then n else -n
  {
    if n > 0 {
      TimesNegates(n - 1, x);
    } else if n < 0 {
      TimesNegates(n + 1, x);
    }
  }

  lemma {:induction false} TimesZero(n: int)
    ensures Times(n, 0.0) == 0.0
    decreases if n >= 0 then n else -n
  {
    if n > 0 {
      TimesZero(n - 1);
    } else if n < 0 {
      TimesZero(n + 1);
    }
  }

  lemma {:induction false} TimesGrows(n: int, x: real, y: real)
    requires x <= y
    ensures n >= 0 ==> Times(n, x) <= Times(n, y)
    ensures n <= 0 ==> Times(n, y) <= Times(n, x)
    decreases if n >= 0 then n else -n
  {
    if n > 0 {
      TimesGrows(n - 1, x, y);
    } else if n < 0 {
      TimesGrows(n + 1, x, y);
    }
  }
}
