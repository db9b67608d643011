/** The Wilson score interval (statistics.py) in exact reals, with the square root as the nonnegative root of its radicand. */
module Statistics {
  import opened Basics

  datatype Interval = Interval(successes: nat, trials: nat, estimate: real, lower: real, upper: real)

  datatype StatisticsError = OutOfRange

  function Estimate(successes: nat, trials: nat): real
    requires trials > 0
  {
    successes as real / trials as real
  }

  /** `z_squared / trials` */
  function Weight(trials: nat, z: real): real
    requires trials > 0
  {
    z * z / trials as real
  }

  /** What is under the square root. */
  function Radicand(successes: nat, trials: nat, z: real): real
    requires trials > 0
  {
    var p, n := Estimate(successes, trials), trials as real;
    p * (1.0 - p) / n + z * z / (4.0 * n * n)
  }

  predicate IsRoot(root: real, x: real) {
    root >= 0.0 && root * root == x
  }

  function Center(successes: nat, trials: nat, z: real): real
    requires trials > 0 && z > 0.0
  {
    WeightPositive(trials, z);
    (Estimate(successes, trials) + z * z / (2.0 * trials as real)) / (1.0 + Weight(trials, z))
  }

  function Margin(trials: nat, z: real, root: real): real
    requires trials > 0 && z > 0.0
  {
    WeightPositive(trials, z);
    z * root / (1.0 + Weight(trials, z))
  }

  lemma WeightPositive(trials: nat, z: real)
    requires trials > 0 && z > 0.0
    ensures Weight(trials, z) > 0.0
  {
    Quotient(z, trials as real);
    Positive(z, z / trials as real);
    assert z * z / trials as real == z * (z / trials as real);
  }

  /** `wilson_interval`, given the root it computes. */
  function WilsonInterval(successes: int, trials: int, z: real, root: real): Result<Interval, StatisticsError> {
    if trials <= 0 || successes < 0 || successes > trials || z <= 0.0 then Err(OutOfRange)
    else
      var center, margin := Center(successes, trials, z), Margin(trials, z, root);
      var lower, upper := center - margin, center + margin;
      Ok(Interval(successes, trials, Estimate(successes, trials), if 0.0 > lower then 0.0 else lower,
                  if 1.0 < upper then 1.0 else upper))
  }

  // ----- the bounds as the roots of a quadratic -----

  /**
   The unclamped bounds, scaled by one plus the weight: the two roots of a quadratic in the estimate `p`
   and the weight `k`.
   */
  predicate Scaled(p: real, k: real, low: real, high: real) {
    && low <= high && low + high == 2.0 * p + k && low * high == (1.0 + k) * p * p
  }

  /** The monic quadratic with the two roots, at a point. */
  function At(low: real, high: real, t: real): real {
    (low - t) * (high - t)
  }

  function Times(x: real, y: real): real {
    x * y
  }

  lemma TimesSign(x: real, y: real)
    ensures x >= 0.0 && y >= 0.0 ==> Times(x, y) >= 0.0
    ensures x >= 0.0 && y <= 0.0 ==> Times(x, y) <= 0.0
    ensures x > 0.0 && y > 0.0 ==> Times(x, y) > 0.0
  {
    if x >= 0.0 && y >= 0.0 { Nonnegative(x, y); }
    if x >= 0.0 && y <= 0.0 { Nonnegative(x, -y); Negated(x, y); }
  }

  lemma AtRoots(low: real, high: real)
    ensures At(low, high, low) == 0.0 && At(low, high, high) == 0.0
  {
  }

  lemma Positive(x: real, y: real)
    requires x > 0.0 && y > 0.0
    ensures x * y > 0.0
  {
  }

  lemma Nonnegative(x: real, y: real)
    requires x >= 0.0 && y >= 0.0
    ensures x * y >= 0.0
  {
  }

  lemma Quotient(x: real, y: real)
    requires x > 0.0 && y > 0.0
    ensures x / y > 0.0
  {
    assert x / y * y == x;
    SignOfProduct(x / y, y);
  }

  lemma SignOfProduct(w: real, y: real)
    requires y > 0.0
    ensures w <= 0.0 ==> w * y <= 0.0
  {
  }

  lemma Negated(x: real, y: real)
    ensures (-x) * (-y) == x * y && (-x) * y == -(x * y) && x * (-y) == -(x * y)
  {
  }

  lemma Expand(x: real, y: real, t: real)
    ensures (x - t) * (y - t) == x * y - t * (x + y) + t * t
  {
    assert t * (x + y) == t * x + t * y;
  }

  lemma Distribute(u: real, x: real, y: real)
    ensures u * (x + y) == u * x + u * y && u * (x - y) == u * x - u * y
  {
  }

  lemma AtAsProduct(low: real, high: real, t: real)
    ensures At(low, high, t) == Times(low - t, high - t)
    ensures At(low, high, t) == Times(t - low, t - high)
    ensures At(low, high, t) == -Times(t - low, high - t)
  {
    Negated(t - low, t - high);
    Negated(t - low, high - t);
  }

  /** A point where the quadratic is not positive lies between its roots. */
  lemma BetweenRoots(low: real, high: real, t: real)
    requires low <= high && At(low, high, t) <= 0.0
    ensures low <= t <= high
  {
    hide At, Times;
    AtAsProduct(low, high, t);
    TimesSign(low - t, high - t);
    TimesSign(t - low, t - high);
  }

  /** A point where the quadratic is not negative, on the near side of a root, lies outside. */
  lemma BelowRoots(low: real, high: real, t: real)
    requires At(low, high, t) >= 0.0 && t < high
    ensures t <= low
  {
    hide At, Times;
    AtAsProduct(low, high, t);
    TimesSign(t - low, high - t);
  }

  lemma AboveRoots(low: real, high: real, t: real)
    requires At(low, high, t) >= 0.0 && low < t
    ensures high <= t
  {
    hide At, Times;
    AtAsProduct(low, high, t);
    TimesSign(t - low, high - t);
  }

  /** The quadratic at the scaled estimate `u`. */
  lemma AtEstimate(p: real, k: real, low: real, high: real, u: real)
    requires Scaled(p, k, low, high) && u == p + k * p
    ensures At(low, high, u) == Times(u, k * p - k)
  {
    Expand(low, high, u);
    assert low * high == u * p by {
      assert (1.0 + k) * p == u;
    }
    Distribute(u, 2.0 * p, k);
    Distribute(u, u - p, k);
    Distribute(u, u, p);
    assert u * (2.0 * p) == 2.0 * (u * p);
  }

  /** The quadratic at the scaled one `d`. */
  lemma AtOne(p: real, k: real, low: real, high: real, d: real)
    requires Scaled(p, k, low, high) && d == 1.0 + k
    ensures At(low, high, d) == Times(d, (1.0 - p) * (1.0 - p))
  {
    Expand(low, high, d);
    Distribute(d, 2.0 * p, k);
    var u := d * p;
    assert low * high == u * p;
    assert d * d == d + d * k by { Distribute(d, 1.0, k); }
    assert (1.0 - p) * (1.0 - p) == 1.0 - 2.0 * p + p * p by { Distribute(1.0 - p, 1.0, p); }
    Distribute(d, 1.0 - 2.0 * p, p * p);
    Distribute(d, 1.0, 2.0 * p);
    assert d * (2.0 * p) == 2.0 * u;
    assert d * (p * p) == u * p;
  }

  lemma EnclosesEstimate(p: real, k: real, low: real, high: real, u: real)
    requires 0.0 <= p <= 1.0 && k > 0.0 && Scaled(p, k, low, high) && u == p + k * p
    ensures low <= u <= high
  {
    AtEstimate(p, k, low, high, u);
    ScaledOrdered(p, k, low, high);
    EstimateSigns(p, k, u);
    hide Scaled, At, Times;
    TimesSign(u, k * p - k);
    BetweenRoots(low, high, u);
  }

  lemma EstimateSigns(p: real, k: real, u: real)
    requires 0.0 <= p <= 1.0 && k > 0.0 && u == p + k * p
    ensures u >= 0.0 && k * p - k <= 0.0
  {
    Nonnegative(k, p);
    Nonnegative(k, 1.0 - p);
    Distribute(k, 1.0, p);
  }

  lemma BelowOne(p: real, k: real, low: real, high: real, d: real)
    requires 0.0 <= p <= 1.0 && k > 0.0 && Scaled(p, k, low, high) && d == 1.0 + k
    ensures high <= d
  {
    AtOne(p, k, low, high, d);
    ScaledOrdered(p, k, low, high);
    Nonnegative(1.0 - p, 1.0 - p);
    hide Scaled, At, Times;
    TimesSign(d, (1.0 - p) * (1.0 - p));
    AboveRoots(low, high, d);
  }

  /** The scaled bounds enclose the scaled estimate and stay between zero and the scaled one. */
  lemma ScaledWithin(p: real, k: real, low: real, high: real)
    requires 0.0 <= p <= 1.0 && k > 0.0 && Scaled(p, k, low, high)
    ensures 0.0 <= low <= p + k * p <= high <= 1.0 + k
  {
    hide Scaled;
    LowNonnegative(p, k, low, high);
    EnclosesEstimate(p, k, low, high, p + k * p);
    BelowOne(p, k, low, high, 1.0 + k);
  }

  lemma ScaledOrdered(p: real, k: real, low: real, high: real)
    requires 0.0 <= p <= 1.0 && k > 0.0 && Scaled(p, k, low, high)
    ensures low <= high && high > 0.0 && low < 1.0 + k
  {
  }

  lemma LowNonnegative(p: real, k: real, low: real, high: real)
    requires 0.0 <= p && k > 0.0 && Scaled(p, k, low, high)
    ensures low >= 0.0
  {
    Nonnegative(p, p);
    Nonnegative(1.0 + k, p);
    Nonnegative((1.0 + k) * p, p);
    assert high > 0.0;
    if low < 0.0 {
      Positive(-low, high);
      Negated(low, high);
    }
  }

  /** The two quadratics of one weight differ by a line. */
  lemma QuadraticsDiffer(p: real, q: real, k: real, low: real, high: real, lower: real, upper: real, t: real)
    requires Scaled(p, k, low, high) && Scaled(q, k, lower, upper)
    ensures At(lower, upper, t) - At(low, high, t) == Times(q - p, (q + k * q) + (p + k * p) - 2.0 * t)
  {
    Expand(low, high, t);
    Expand(lower, upper, t);
    var d := 1.0 + k;
    assert lower * upper - low * high == (d * q) * q - (d * p) * p;
    assert d * q == q + k * q && d * p == p + k * p;
    Distribute(t, 2.0 * q, k);
    Distribute(t, 2.0 * p, k);
    var u, v := p + k * p, q + k * q;
    Distribute(q - p, v + u, 2.0 * t);
    Distribute(q - p, v, u);
    Difference(q, p, v);
    Difference(q, p, u);
    Difference(q, p, 2.0 * t);
    assert p * v == q * u by {
      Distribute(p, q, k * q);
      Distribute(q, p, k * p);
      assert p * (k * q) == q * (k * p);
    }
    assert t * (2.0 * q) == q * (2.0 * t) && t * (2.0 * p) == p * (2.0 * t);
  }

  lemma Difference(q: real, p: real, x: real)
    ensures (q - p) * x == q * x - p * x
  {
  }

  lemma BothRise(p: real, q: real, k: real, low: real, high: real, lower: real, upper: real, u: real, v: real)
    requires Scaled(p, k, low, high) && Scaled(q, k, lower, upper) && u == p + k * p && v == q + k * q
    requires p < q && u < v && low <= u && v <= upper
    ensures low <= lower && high <= upper
  {
    hide Scaled, At, Times;
    QuadraticsDiffer(p, q, k, low, high, lower, upper, low);
    QuadraticsDiffer(p, q, k, low, high, lower, upper, upper);
    AtRoots(low, high);
    AtRoots(lower, upper);
    TimesSign(q - p, v + u - 2.0 * low);
    TimesSign(q - p, v + u - 2.0 * upper);
    BelowRoots(lower, upper, low);
    AboveRoots(low, high, upper);
  }

  lemma ScaleRises(p: real, q: real, k: real)
    requires p < q && k > 0.0
    ensures p + k * p < q + k * q
  {
    Positive(k, q - p);
    Difference(q, p, k);
  }

  /** A larger estimate has the larger bounds. */
  lemma ScaledMonotone(p: real, q: real, k: real, low: real, high: real, lower: real, upper: real)
    requires 0.0 <= p < q <= 1.0 && k > 0.0 && Scaled(p, k, low, high) && Scaled(q, k, lower, upper)
    ensures low <= lower && high <= upper
  {
    hide Scaled;
    ScaledWithin(p, k, low, high);
    ScaledWithin(q, k, lower, upper);
    ScaleRises(p, q, k);
    BothRise(p, q, k, low, high, lower, upper, p + k * p, q + k * q);
  }

  // ----- from the interval to its scaled bounds -----

  lemma QuarterSquare(w: real, n: real)
    requires n > 0.0
    ensures w / (4.0 * n * n) == w / n / n / 4.0
  {
    var m, a := 4.0 * n, w / n;
    NestedQuotient(w, m, n);
    NestedQuotient(w, n, 4.0);
    assert w / m == a / 4.0;
    SwapQuotients(a, 4.0, n);
    assert a / 4.0 / n == a / n / 4.0;
    assert w / (m * n) == a / 4.0 / n;
    var d := 4.0 * n * n;
    assert d == m * n;
    assert w / d == w / (m * n);
  }

  lemma NestedQuotient(w: real, x: real, y: real)
    requires x > 0.0 && y > 0.0
    ensures x * y > 0.0 && w / (x * y) == w / x / y
  {
    Positive(x, y);
    var a, b := w / x, w / x / y;
    assert a * x == w && b * y == a;
    assert b * (x * y) == w by { assert b * (x * y) == (b * y) * x; }
    assert w / (x * y) * (x * y) == w;
    SameProduct(w / (x * y), b, x * y);
  }

  lemma SwapQuotients(w: real, x: real, y: real)
    requires x > 0.0 && y > 0.0
    ensures w / x / y == w / y / x
  {
    NestedQuotient(w, x, y);
    NestedQuotient(w, y, x);
    assert x * y == y * x;
  }

  /** The margin's square, scaled. */
  lemma MarginSquared(p: real, n: real, z: real, root: real, radicand: real)
    requires n > 0.0 && root * root == radicand && radicand == p * (1.0 - p) / n + z * z / (4.0 * n * n)
    ensures (z * root) * (z * root) == z * z / n * (p * (1.0 - p)) + z * z / n * (z * z / n) / 4.0
  {
    var q, w := p * (1.0 - p), z * z;
    assert (z * root) * (z * root) == w * (root * root);
    assert w * (q / n) == w / n * q;
    QuarterSquare(w, n);
    assert w * (w / n / n / 4.0) == w / n * (w / n) / 4.0;
    Distribute(w, q / n, w / (4.0 * n * n));
  }

  /** The bounds of an interval, before they are divided by one plus the weight. */
  lemma BoundsAreScaled(p: real, k: real, m: real)
    requires m >= 0.0 && m * m == k * (p * (1.0 - p)) + k * k / 4.0
    ensures Scaled(p, k, p + k / 2.0 - m, p + k / 2.0 + m)
  {
    var c := p + k / 2.0;
    assert (c - m) * (c + m) == c * c - m * m by {
      Distribute(c - m, c, m);
      Difference(c, m, c);
      Difference(c, m, m);
    }
    assert c * c == p * p + k * p + k * k / 4.0 by {
      Distribute(c, p, k / 2.0);
      Distribute(p, p, k / 2.0);
      Distribute(k / 2.0, p, k / 2.0);
      assert k / 2.0 * p == k * p / 2.0 && p * (k / 2.0) == k * p / 2.0;
      assert k / 2.0 * (k / 2.0) == k * k / 4.0;
    }
    assert k * (p * (1.0 - p)) == k * p - k * (p * p) by {
      Distribute(p, 1.0, p);
      Distribute(k, p, p * p);
    }
    assert (1.0 + k) * p * p == p * p + k * (p * p);
  }

  function Low(successes: nat, trials: nat, z: real, root: real): real
    requires trials > 0 && z > 0.0
  {
    Center(successes, trials, z) - Margin(trials, z, root)
  }

  function High(successes: nat, trials: nat, z: real, root: real): real
    requires trials > 0 && z > 0.0
  {
    Center(successes, trials, z) + Margin(trials, z, root)
  }

  /** The numerators of the two bounds. */
  function Numerators(successes: nat, trials: nat, z: real, root: real): (real, real)
    requires trials > 0
  {
    var c := Estimate(successes, trials) + Weight(trials, z) / 2.0;
    (c - z * root, c + z * root)
  }

  lemma EstimateWithin(successes: nat, trials: nat)
    requires 0 <= successes <= trials && trials > 0
    ensures 0.0 <= Estimate(successes, trials) <= 1.0
    ensures Estimate(trials - successes, trials) == 1.0 - Estimate(successes, trials)
  {
    var s, n := successes as real, trials as real;
    assert s / n * n == s && (n - s) / n * n == n - s;
    RatioWithin(s, n);
    assert (trials - successes) as real == n - s;
    SameProduct((n - s) / n, 1.0 - s / n, n);
  }

  lemma RatioWithin(s: real, n: real)
    requires 0.0 <= s <= n && n > 0.0
    ensures 0.0 <= s / n <= 1.0
  {
    var w := s / n;
    assert w * n == s;
    Difference(1.0, w, n);
    NegativeProduct(w, n);
    NegativeProduct(1.0 - w, n);
  }

  lemma NegativeProduct(w: real, n: real)
    requires n > 0.0
    ensures w < 0.0 ==> w * n < 0.0
  {
  }

  lemma SameProduct(x: real, y: real, n: real)
    requires n != 0.0 && x * n == y * n
    ensures x == y
  {
  }

  lemma MarginOf(successes: nat, trials: nat, z: real, root: real)
    requires trials > 0 && z > 0.0 && IsRoot(root, Radicand(successes, trials, z))
    ensures var p, k := Estimate(successes, trials), Weight(trials, z);
            root >= 0.0 && (z * root) * (z * root) == k * (p * (1.0 - p)) + k * k / 4.0
  {
    hide Estimate;
    MarginSquared(Estimate(successes, trials), trials as real, z, root, Radicand(successes, trials, z));
  }

  /** The interval's bounds are its numerators over one plus the weight, and the numerators are the scaled bounds. */
  lemma NumeratorsAreScaled(successes: nat, trials: nat, z: real, root: real)
    requires successes <= trials && trials > 0 && z > 0.0 && IsRoot(root, Radicand(successes, trials, z))
    ensures var (low, high) := Numerators(successes, trials, z, root);
            && Scaled(Estimate(successes, trials), Weight(trials, z), low, high)
            && Low(successes, trials, z, root) * (1.0 + Weight(trials, z)) == low
            && High(successes, trials, z, root) * (1.0 + Weight(trials, z)) == high
  {
    hide Scaled, Estimate, Weight, Radicand, IsRoot;
    var p, k := Estimate(successes, trials), Weight(trials, z);
    WeightPositive(trials, z);
    MarginOf(successes, trials, z, root);
    Nonnegative(z, root);
    BoundsAreScaled(p, k, z * root);
    HalfWeight(trials, z);
    Undivided(p + k / 2.0, z * root, 1.0 + k);
  }

  lemma HalfWeight(trials: nat, z: real)
    requires trials > 0
    ensures z * z / (2.0 * trials as real) == Weight(trials, z) / 2.0
  {
  }

  lemma Undivided(c: real, m: real, d: real)
    requires d != 0.0
    ensures (c / d - m / d) * d == c - m && (c / d + m / d) * d == c + m
  {
    assert c / d * d == c && m / d * d == m;
    Distribute(d, c / d, m / d);
  }

  lemma Scaling(x: real, y: real, d: real)
    requires d > 0.0
    ensures x * d <= y * d ==> x <= y
  {
    if x > y {
      Positive(x - y, d);
      Difference(x, y, d);
    }
  }

  // ----- the interval -----

  /** The unclamped bounds enclose the observed proportion and stay within zero and one, so the clamps never bite. */
  lemma IntervalEncloses(successes: nat, trials: nat, z: real, root: real)
    requires successes <= trials && trials > 0 && z > 0.0 && IsRoot(root, Radicand(successes, trials, z))
    ensures 0.0 <= Low(successes, trials, z, root) <= Estimate(successes, trials) <= High(successes, trials, z, root) <= 1.0
    ensures WilsonInterval(successes, trials, z, root) ==
            Ok(Interval(successes, trials, Estimate(successes, trials), Low(successes, trials, z, root), High(successes, trials, z, root)))
  {
    hide Scaled, Numerators, Low, High, Center, Margin, Radicand, Weight, Estimate, IsRoot;
    var p, k := Estimate(successes, trials), Weight(trials, z);
    var low, high := Low(successes, trials, z, root), High(successes, trials, z, root);
    WeightPositive(trials, z);
    EstimateWithin(successes, trials);
    NumeratorsAreScaled(successes, trials, z, root);
    var (a, b) := Numerators(successes, trials, z, root);
    ScaledWithin(p, k, a, b);
    Enclosed(low, p, high, k);
    BoundsOf(successes, trials, z, root);
  }

  lemma BoundsOf(successes: nat, trials: nat, z: real, root: real)
    requires successes <= trials && trials > 0 && z > 0.0
    requires 0.0 <= Low(successes, trials, z, root) && High(successes, trials, z, root) <= 1.0
    ensures WilsonInterval(successes, trials, z, root) ==
            Ok(Interval(successes, trials, Estimate(successes, trials), Low(successes, trials, z, root), High(successes, trials, z, root)))
  {
    hide Center, Margin;
  }

  lemma Enclosed(low: real, p: real, high: real, k: real)
    requires k > 0.0 && 0.0 <= low * (1.0 + k) <= p + k * p <= high * (1.0 + k) <= 1.0 + k
    ensures 0.0 <= low <= p <= high <= 1.0
  {
    var d := 1.0 + k;
    assert p * d == p + k * p && 0.0 * d == 0.0 && 1.0 * d == d;
    Scaling(0.0, low, d);
    Scaling(low, p, d);
    Scaling(p, high, d);
    Scaling(high, 1.0, d);
  }

  /** The interval for the failures is the reflection of the one for the successes. */
  lemma IntervalReflects(successes: nat, trials: nat, z: real, root: real)
    requires successes <= trials && trials > 0 && z > 0.0 && IsRoot(root, Radicand(successes, trials, z))
    ensures IsRoot(root, Radicand(trials - successes, trials, z))
    ensures Low(trials - successes, trials, z, root) == 1.0 - High(successes, trials, z, root)
    ensures High(trials - successes, trials, z, root) == 1.0 - Low(successes, trials, z, root)
  {
    EstimateWithin(successes, trials);
    SameRadicand(successes, trials, z);
    CentersReflect(successes, trials, z);
  }

  lemma SameRadicand(successes: nat, trials: nat, z: real)
    requires successes <= trials && trials > 0
    ensures Radicand(trials - successes, trials, z) == Radicand(successes, trials, z)
  {
    EstimateWithin(successes, trials);
    var p := Estimate(successes, trials);
    assert (1.0 - p) * (1.0 - (1.0 - p)) == p * (1.0 - p);
  }

  lemma CentersReflect(successes: nat, trials: nat, z: real)
    requires successes <= trials && trials > 0 && z > 0.0
    ensures Center(trials - successes, trials, z) == 1.0 - Center(successes, trials, z)
  {
    EstimateWithin(successes, trials);
    WeightPositive(trials, z);
    var p, k := Estimate(successes, trials), Weight(trials, z);
    HalfWeight(trials, z);
    Halves(p, k, z * z / (2.0 * trials as real));
  }

  lemma Halves(p: real, k: real, h: real)
    requires k > 0.0 && h == k / 2.0
    ensures (1.0 - p + h) / (1.0 + k) == 1.0 - (p + h) / (1.0 + k)
  {
    var d := 1.0 + k;
    assert (1.0 - p + h) / d * d == 1.0 - p + h && (p + h) / d * d == p + h;
    Distribute(d, 1.0, (p + h) / d);
    SameProduct((1.0 - p + h) / d, 1.0 - (p + h) / d, d);
  }

  /** Both bounds rise with the number of successes. */
  lemma IntervalMonotone(fewer: nat, more: nat, trials: nat, z: real, root: real, other: real)
    requires fewer < more <= trials && trials > 0 && z > 0.0
    requires IsRoot(root, Radicand(fewer, trials, z)) && IsRoot(other, Radicand(more, trials, z))
    ensures Low(fewer, trials, z, root) <= Low(more, trials, z, other)
    ensures High(fewer, trials, z, root) <= High(more, trials, z, other)
  {
    hide Scaled, Numerators, Low, High, Center, Margin, Radicand, Weight, Estimate, IsRoot;
    var p, q, k := Estimate(fewer, trials), Estimate(more, trials), Weight(trials, z);
    WeightPositive(trials, z);
    EstimateWithin(fewer, trials);
    EstimateWithin(more, trials);
    EstimateRises(fewer, more, trials);
    NumeratorsAreScaled(fewer, trials, z, root);
    NumeratorsAreScaled(more, trials, z, other);
    var (a, b) := Numerators(fewer, trials, z, root);
    var (c, d) := Numerators(more, trials, z, other);
    ScaledMonotone(p, q, k, a, b, c, d);
    Scaling(Low(fewer, trials, z, root), Low(more, trials, z, other), 1.0 + k);
    Scaling(High(fewer, trials, z, root), High(more, trials, z, other), 1.0 + k);
  }

  lemma EstimateRises(fewer: nat, more: nat, trials: nat)
    requires fewer < more <= trials && trials > 0
    ensures Estimate(fewer, trials) < Estimate(more, trials)
  {
    var s, t, n := fewer as real, more as real, trials as real;
    assert s / n * n == s && t / n * n == t;
    Scaling(t / n, s / n, n);
  }

  // ----- the interval as the score test's -----

  /** The squared distance to the observed proportion is within z squared variances of the mean of so many trials. */
  predicate Compatible(successes: nat, trials: nat, z: real, x: real)
    requires trials > 0
  {
    var p := Estimate(successes, trials);
    trials as real * ((x - p) * (x - p)) <= z * z * (x * (1.0 - x))
  }

  /** How far a proportion is from being critical. */
  function Excess(p: real, k: real, x: real): real {
    (x - p) * (x - p) - k * (x * (1.0 - x))
  }

  lemma ExcessExpanded(p: real, k: real, x: real)
    ensures Excess(p, k, x) == x * x - 2.0 * (p * x) + p * p - k * x + k * (x * x)
  {
    Expand(x, x, p);
    assert (x - p) * (x - p) == x * x - p * (x + x) + p * p;
    assert x * (1.0 - x) == x - x * x;
    Distribute(k, x, x * x);
  }

  lemma ScaledPoint(p: real, k: real, x: real)
    ensures (1.0 + k) * p * p - (1.0 + k) * x * (2.0 * p + k) + ((1.0 + k) * x) * ((1.0 + k) * x)
            == (1.0 + k) * (x * x - 2.0 * (p * x) + p * p - k * x + k * (x * x))
  {
    var d := 1.0 + k;
    assert d * x * (2.0 * p + k) == d * (2.0 * (p * x) + k * x);
    assert (d * x) * (d * x) == d * (d * (x * x));
    assert d * (x * x) == x * x + k * (x * x);
    assert d * p * p == d * (p * p);
  }

  lemma AtScaledPoint(p: real, k: real, low: real, high: real, x: real)
    requires Scaled(p, k, low, high)
    ensures At(low, high, (1.0 + k) * x) == (1.0 + k) * Excess(p, k, x)
  {
    var t := (1.0 + k) * x;
    Expand(low, high, t);
    ScaledPoint(p, k, x);
    ExcessExpanded(p, k, x);
  }

  lemma WithinRoots(low: real, high: real, t: real)
    requires low <= t <= high
    ensures At(low, high, t) <= 0.0
  {
    hide At, Times;
    AtAsProduct(low, high, t);
    TimesSign(t - low, high - t);
  }

  lemma SignScaled(d: real, y: real)
    requires d > 0.0
    ensures d * y <= 0.0 <==> y <= 0.0
  {
    if y > 0.0 { Positive(d, y); } else { Nonnegative(d, -y); Negated(d, y); }
  }

  lemma ExcessIsWeighed(p: real, n: real, z: real, x: real)
    requires n > 0.0
    ensures n * Excess(p, z * z / n, x) == n * ((x - p) * (x - p)) - z * z * (x * (1.0 - x))
  {
    var k, v := z * z / n, x * (1.0 - x);
    assert k * n == z * z;
    Distribute(n, (x - p) * (x - p), k * v);
    assert n * (k * v) == k * n * v;
  }

  lemma CompatibleIff(successes: nat, trials: nat, z: real, x: real)
    requires trials > 0
    ensures Compatible(successes, trials, z, x) <==> Excess(Estimate(successes, trials), Weight(trials, z), x) <= 0.0
  {
    hide Excess, Estimate;
    var p, n := Estimate(successes, trials), trials as real;
    ExcessIsWeighed(p, n, z, x);
    SignScaled(n, Excess(p, z * z / n, x));
  }

  /** A point is between the bounds exactly when its scaled point is between the scaled bounds. */
  lemma BetweenScaled(low: real, high: real, x: real, d: real, a: real, b: real, t: real)
    requires d > 0.0 && low * d == a && high * d == b && d * x == t
    ensures low <= x <= high <==> a <= t <= b
  {
    if low <= x <= high {
      ScaledBoth(low, x, d);
      ScaledBoth(x, high, d);
    }
    if a <= t <= b {
      Scaling(low, x, d);
      Scaling(x, high, d);
    }
  }

  lemma BetweenIff(p: real, k: real, low: real, high: real, x: real, t: real)
    requires Scaled(p, k, low, high) && k > 0.0 && (1.0 + k) * x == t
    ensures low <= t <= high <==> Excess(p, k, x) <= 0.0
  {
    hide Scaled, At, Excess;
    AtScaledPoint(p, k, low, high, x);
    SignScaled(1.0 + k, Excess(p, k, x));
    RootsOrdered(p, k, low, high);
    if low <= t <= high {
      WithinRoots(low, high, t);
    }
    if Excess(p, k, x) <= 0.0 {
      BetweenRoots(low, high, t);
    }
  }

  lemma RootsOrdered(p: real, k: real, low: real, high: real)
    requires Scaled(p, k, low, high)
    ensures low <= high
  {
  }

  lemma ScaledBoth(x: real, y: real, d: real)
    requires x <= y && d > 0.0
    ensures x * d <= y * d
  {
    Nonnegative(y - x, d);
    Difference(y, x, d);
  }

  /**
   The interval is the score test's: every proportion lies within the bounds exactly when its squared
   distance to the observed one is at most z squared times its own variance over so many trials.
   */
  lemma IntervalIsScoreTest(successes: nat, trials: nat, z: real, root: real, x: real)
    requires successes <= trials && trials > 0 && z > 0.0 && IsRoot(root, Radicand(successes, trials, z))
    ensures WilsonInterval(successes, trials, z, root).Ok?
    ensures var interval := WilsonInterval(successes, trials, z, root).value;
            interval.lower <= x <= interval.upper <==> Compatible(successes, trials, z, x)
  {
    hide Scaled, Numerators, Low, High, Center, Margin, Radicand, Estimate, Weight, IsRoot, Excess, Compatible;
    var p, k := Estimate(successes, trials), Weight(trials, z);
    WeightPositive(trials, z);
    IntervalEncloses(successes, trials, z, root);
    NumeratorsAreScaled(successes, trials, z, root);
    var (a, b) := Numerators(successes, trials, z, root);
    CompatibleIff(successes, trials, z, x);
    var t := (1.0 + k) * x;
    BetweenScaled(Low(successes, trials, z, root), High(successes, trials, z, root), x, 1.0 + k, a, b, t);
    BetweenIff(p, k, a, b, x, t);
  }
}
