/** How many decimal digits a number takes, and why a document that records its own size settles. */
module DigitCounts {
  import opened Text

  function DigitCount(n: nat): (d: nat)
    ensures d >= 1
  {
    |Digits(n)|
  }

  function Power(k: nat): (p: nat)
    ensures p >= k + 1
  {
    if k == 0 then 1 else 10 * Power(k - 1)
  }

  lemma {:induction false} CountBounds(n: nat)
    ensures n < Power(DigitCount(n))
    ensures n > 0 ==> Power(DigitCount(n) - 1) <= n
  {
    if n >= 10 {
      CountBounds(n / 10);
      assert DigitCount(n) == DigitCount(n / 10) + 1;
    } else {
      assert Power(1) == 10 * Power(0);
    }
  }

  lemma {:induction false} CountMonotone(m: nat, n: nat)
    requires m <= n
    ensures DigitCount(m) <= DigitCount(n)
  {
    if m >= 10 {
      CountMonotone(m / 10, n / 10);
    } else if n >= 10 {
      CountMonotone(0, n / 10);
    }
  }

  lemma {:induction false} CountStep(n: nat)
    ensures DigitCount(n + 1) <= DigitCount(n) + 1
  {
    if n >= 10 {
      CountStep(n / 10);
      CountMonotone((n + 1) / 10, n / 10 + 1);
    } else {
      assert DigitCount(n + 1) <= 2;
    }
  }

  /** The digit count grows no faster than the number. */
  lemma {:induction false} CountLipschitz(n: nat, k: nat)
    ensures DigitCount(n) <= DigitCount(n + k) <= DigitCount(n) + k
  {
    if k > 0 {
      CountLipschitz(n, k - 1);
      CountStep(n + k - 1);
      CountMonotone(n, n + k);
    }
  }

  lemma {:induction false} PowerMonotone(j: nat, k: nat)
    requires j <= k
    ensures Power(j) <= Power(k)
  {
    if j < k {
      PowerMonotone(j, k - 1);
    }
  }

  lemma CountBelowPower(n: nat, k: nat)
    requires n < Power(k) && k > 0
    ensures DigitCount(n) <= k
  {
    CountBounds(n);
    if DigitCount(n) > k && n > 0 {
      PowerMonotone(k, DigitCount(n) - 1);
    }
  }

  /** The size of a document as a function of how many digits its recorded size takes: a part that does not
      depend on it, the recorded size itself, and the recorded length of the part that holds it. */
  function SizeFor(fixed: int, inner: nat, digits: nat): int {
    fixed + digits + DigitCount(inner + digits)
  }

  lemma PowerStep(k: nat)
    ensures Power(k + 1) == 10 * Power(k)
  {
  }

  /** A number not far above `k` digits has `k` or `k + 1`. */
  lemma JustAbove(below: nat, n: nat)
    requires below <= n < Power(DigitCount(below)) + 2 * DigitCount(below)
    ensures DigitCount(below) <= DigitCount(n) <= DigitCount(below) + 1
  {
    hide Digits, DigitCount, Power;
    var k := DigitCount(below);
    CountMonotone(below, n);
    PowerStep(k);
    CountBelowPower(n, k + 1);
  }

  /** The second recomputation has as many digits as the third, so the fourth changes nothing. */
  lemma SizesSettle(fixed: int, inner: nat, first: nat, second: nat, third: nat)
    requires first == SizeFor(fixed, inner, 1)
    requires second == SizeFor(fixed, inner, DigitCount(first))
    requires third == SizeFor(fixed, inner, DigitCount(second))
    ensures first <= second <= third
    ensures DigitCount(third) == DigitCount(second)
    ensures SizeFor(fixed, inner, DigitCount(third)) == third
  {
    hide Digits, DigitCount, Power;
    var d1, d2 := DigitCount(first), DigitCount(second);
    CountBounds(first);
    CountLipschitz(inner + 1, d1 - 1);
    assert inner + 1 + (d1 - 1) == inner + d1;
    assert first <= second <= first + 2 * (d1 - 1);
    JustAbove(first, second);
    if d2 == d1 + 1 {
      CountLipschitz(inner + d1, 1);
      assert inner + d1 + 1 == inner + d2;
      assert second <= third <= second + 2;
      JustAbove(first, third);
      CountMonotone(second, third);
    }
  }
}
