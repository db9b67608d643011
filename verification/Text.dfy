/** Python strings: code-point order, sorted name lists, decimal rendering, replacement and joining. */
module Text {
  import opened Basics

  // ----- code-point order -----

  predicate StrLess(a: string, b: string) {
    b != [] && (a == [] || a[0] < b[0] || (a[0] == b[0] && StrLess(a[1..], b[1..])))
  }

  lemma {:induction false} StrLessTransitive(a: string, b: string, c: string)
    requires StrLess(a, b) && StrLess(b, c)
    ensures StrLess(a, c)
  {
    if a != [] && a[0] == b[0] == c[0] {
      StrLessTransitive(a[1..], b[1..], c[1..]);
    }
  }

  lemma {:induction false} StrLessTrichotomy(a: string, b: string)
    ensures a == b || StrLess(a, b) || StrLess(b, a)
    ensures !(StrLess(a, b) && StrLess(b, a))
    ensures a == b ==> !StrLess(a, b)
  {
    if a != [] && b != [] {
      StrLessTrichotomy(a[1..], b[1..]);
      if a[0] == b[0] && a[1..] == b[1..] {
        assert a == [a[0]] + a[1..] == b;
      }
    }
  }

  // ----- sorted name lists -----

  predicate StrictlySorted(xs: seq<string>) {
    forall i, j | 0 <= i < j < |xs| :: StrLess(xs[i], xs[j])
  }

  lemma SortedDistinct(xs: seq<string>)
    requires StrictlySorted(xs)
    ensures Distinct(xs)
  {
    forall i, j | 0 <= i < j < |xs| ensures xs[i] != xs[j] {
      StrLessTrichotomy(xs[i], xs[j]);
    }
  }

  predicate IsLeastOf(least: string, s: set<string>) {
    least in s && forall x | x in s && x != least :: StrLess(least, x)
  }

  lemma LeastExists(s: set<string>)
    requires s != {}
    ensures exists x :: IsLeastOf(x, s)
    decreases s
  {
    var x :| x in s;
    if s == {x} {
      assert IsLeastOf(x, s);
    } else {
      LeastExists(s - {x});
      var y :| IsLeastOf(y, s - {x});
      StrLessTrichotomy(x, y);
      var least := if StrLess(x, y) then x else y;
      forall z | z in s && z != least
        ensures StrLess(least, z)
      {
        if least == x && z != y {
          StrLessTransitive(x, y, z);
        }
      }
      assert IsLeastOf(least, s);
    }
  }

  lemma LeastUnique(x: string, y: string, s: set<string>)
    requires IsLeastOf(x, s) && IsLeastOf(y, s)
    ensures x == y
  {
    StrLessTrichotomy(x, y);
  }

  function Least(s: set<string>): (least: string)
    requires s != {}
    ensures IsLeastOf(least, s)
  {
    LeastExists(s);
    assert forall x, y | IsLeastOf(x, s) && IsLeastOf(y, s) :: x == y by {
      forall x, y | IsLeastOf(x, s) && IsLeastOf(y, s) ensures x == y {
        LeastUnique(x, y, s);
      }
    }
    var least :| least in s && IsLeastOf(least, s);
    least
  }

  /** `sorted(names)` over a set of names. */
  function SortedStrings(s: set<string>): (xs: seq<string>)
    ensures StrictlySorted(xs)
    ensures forall x :: x in xs <==> x in s
    decreases s
  {
    if s == {} then
      []
    else
      var least := Least(s);
      var rest := SortedStrings(s - {least});
      [least] + rest
  }

  lemma NonEmptyCovered<T>(xs: seq<T>, ys: seq<T>)
    requires xs != [] && forall x :: x in xs ==> x in ys
    ensures ys != []
  {
    assert xs[0] in ys;
  }

  lemma {:induction false} StrictlySortedUnique(xs: seq<string>, ys: seq<string>)
    requires StrictlySorted(xs) && StrictlySorted(ys)
    requires forall x :: x in xs <==> x in ys
    ensures xs == ys
  {
    if xs != [] { NonEmptyCovered(xs, ys); }
    if ys != [] { NonEmptyCovered(ys, xs); }
    if xs != [] {
      assert xs[0] in ys && ys[0] in xs;
      StrLessTrichotomy(xs[0], ys[0]);
      assert xs[0] == ys[0];
      forall x ensures x in xs[1..] <==> x in ys[1..] {
        StrLessTrichotomy(xs[0], xs[0]);
        assert x in xs[1..] ==> x in xs && x != xs[0];
        assert x in ys[1..] ==> x in ys && x != ys[0];
        assert x in xs && x != xs[0] ==> x in xs[1..];
        assert x in ys && x != ys[0] ==> x in ys[1..];
      }
      StrictlySortedUnique(xs[1..], ys[1..]);
      assert xs == [xs[0]] + xs[1..];
    }
  }

  // ----- decimal rendering -----

  const DIGITS: string := "0123456789"

  function Digits(n: nat): (s: string)
    ensures s != []
    ensures forall i | 0 <= i < |s| :: '0' <= s[i] <= '9'
  {
    if n < 10 then [DIGITS[n]] else Digits(n / 10) + [DIGITS[n % 10]]
  }

  /** Reads decimal digits; leading zeros do not change the value. */
  function DigitsValue(s: string): int {
    if s == [] then 0 else 10 * DigitsValue(s[..|s| - 1]) + (s[|s| - 1] as int - '0' as int)
  }

  lemma {:induction false} DigitsRoundTrip(n: nat)
    ensures DigitsValue(Digits(n)) == n
  {
    if n >= 10 {
      DigitsRoundTrip(n / 10);
      assert Digits(n)[..|Digits(n)| - 1] == Digits(n / 10);
    } else {
      assert Digits(n)[..0] == [];
    }
  }

  lemma DigitsInjective(m: nat, n: nat)
    requires Digits(m) == Digits(n)
    ensures m == n
  {
    DigitsRoundTrip(m);
    DigitsRoundTrip(n);
  }

  /** `str(n)` for a Python integer. */
  function IntText(n: int): (s: string)
    ensures s != []
    ensures s[0] == '-' || '0' <= s[0] <= '9'
    ensures forall i | 0 <= i < |s| :: s[i] == '-' || '0' <= s[i] <= '9'
  {
    if n < 0 then "-" + Digits(-n) else Digits(n)
  }

  lemma IntTextInjective(m: int, n: int)
    requires IntText(m) == IntText(n)
    ensures m == n
  {
    assert (m < 0) == (IntText(m)[0] == '-') && (n < 0) == (IntText(n)[0] == '-');
    if m < 0 {
      assert Digits(-m) == IntText(m)[1..] == IntText(n)[1..] == Digits(-n);
      DigitsInjective(-m, -n);
    } else {
      DigitsInjective(m, n);
    }
  }

  /** The `:04d` format: at least four digits, zero-padded on the left. */
  function Pad4(n: nat): string {
    var s := Digits(n);
    seq(if |s| < 4 then 4 - |s| else 0, _ => '0') + s
  }

  lemma {:induction false} LeadingZerosVanish(k: nat, s: string)
    ensures DigitsValue(seq(k, _ => '0') + s) == DigitsValue(s)
    decreases |s|, k
  {
    var t := seq(k, _ => '0') + s;
    if s != [] {
      LeadingZerosVanish(k, s[..|s| - 1]);
      assert t[..|t| - 1] == seq(k, _ => '0') + s[..|s| - 1];
    } else if k > 0 {
      LeadingZerosVanish(k - 1, []);
      assert t[..|t| - 1] == seq(k - 1, _ => '0') + [];
    }
  }

  lemma Pad4Injective(m: nat, n: nat)
    requires Pad4(m) == Pad4(n)
    ensures m == n
  {
    LeadingZerosVanish(if |Digits(m)| < 4 then 4 - |Digits(m)| else 0, Digits(m));
    LeadingZerosVanish(if |Digits(n)| < 4 then 4 - |Digits(n)| else 0, Digits(n));
    DigitsRoundTrip(m);
    DigitsRoundTrip(n);
  }

  lemma {:induction false} NoLeadingZero(n: nat)
    requires n > 0
    ensures Digits(n)[0] != '0'
  {
    if n >= 10 {
      NoLeadingZero(n / 10);
      assert Digits(n)[0] == Digits(n / 10)[0];
    }
  }

  /** Decimal digits that denote the number, four of them, or as many as it needs and no leading zero. */
  lemma Pad4Reads(n: nat)
    ensures DigitsValue(Pad4(n)) == n && |Pad4(n)| >= 4
    ensures forall i | 0 <= i < |Pad4(n)| :: '0' <= Pad4(n)[i] <= '9'
    ensures |Pad4(n)| > 4 ==> Pad4(n)[0] != '0'
  {
    assert |Digits(0)| == 1;
    hide Digits, DigitsValue;
    LeadingZerosVanish(if |Digits(n)| < 4 then 4 - |Digits(n)| else 0, Digits(n));
    DigitsRoundTrip(n);
    if n > 0 {
      NoLeadingZero(n);
    }
  }

  // ----- blank strings, joining, searching -----

  /** The characters `str.strip()` removes. */
  predicate IsSpace(c: char) {
    var p := c as int;
    9 <= p <= 13 || 28 <= p <= 32 || p == 0x85 || p == 0xA0 || p == 0x1680 || 0x2000 <= p <= 0x200A
    || p == 0x2028 || p == 0x2029 || p == 0x202F || p == 0x205F || p == 0x3000
  }

  /** `value.strip()` is not empty. */
  predicate NonBlank(s: string) {
    s != [] && (!IsSpace(s[0]) || NonBlank(s[1..]))
  }

  function Join(separator: string, parts: seq<string>): string {
    if parts == [] then ""
    else if |parts| == 1 then parts[0]
    else parts[0] + separator + Join(separator, parts[1..])
  }

  /** `needle in haystack` */
  predicate Contains(haystack: string, needle: string) {
    needle <= haystack || (haystack != [] && Contains(haystack[1..], needle))
  }

  /** `value.replace(c, by)` for a one-character pattern. */
  function ReplaceChar(value: string, c: char, replacement: string): string {
    if value == [] then []
    else (if value[0] == c then replacement else [value[0]]) + ReplaceChar(value[1..], c, replacement)
  }
}
