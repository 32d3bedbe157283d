/** The scalar arithmetic of the per-frame engine in
    components/InteractiveScene.tsx: `clamp01`, the exponential smoothing
    step `x += (t - x) * r` that every animated value takes once per frame,
    and what repeating that step does. Numbers are exact reals. */
module Smoothing {

  function Abs(v: real): (r: real)
    ensures r >= 0.0 && (r == v || r == -v)
  {
    if v < 0.0 then -v else v
  }

  /** `clamp01`: `Math.min(1, Math.max(0, value))`. */
  function Clamp01(v: real): (r: real)
    ensures 0.0 <= r <= 1.0
    ensures 0.0 <= v <= 1.0 ==> r == v
    ensures v < 0.0 ==> r == 0.0
    ensures v > 1.0 ==> r == 1.0
  {
    var low := if v < 0.0 then 0.0 else v;
    if 1.0 < low then 1.0 else low
  }

  /** `clamp01` keeps the order of its inputs. */
  lemma Clamp01Monotone(a: real, b: real)
    requires a <= b
    ensures Clamp01(a) <= Clamp01(b)
  {
  }

  /** Negating a factor negates the product. */
  lemma MulNeg(a: real, w: real)
    ensures (-a) * w == -(a * w) && a * (-w) == -(a * w) && (-a) * (-w) == a * w
  {
  }

  /** A factor in [-1, 1] keeps a non-negative quantity's multiple within it. */
  lemma ScaleWithin(b: real, w: real)
    requires b >= 0.0 && -1.0 <= w <= 1.0
    ensures -b <= b * w <= b
  {
    if w >= 0.0 {
      ScaleNonneg(b, w);
    } else {
      ScaleNonneg(b, -w);
      MulNeg(b, w);
    }
  }

  /** A value within `b` of zero has magnitude at most `b`. */
  lemma AbsWithin(p: real, b: real)
    requires -b <= p <= b
    ensures Abs(p) <= b
  {
  }

  /** Negating one factor leaves the magnitude of a product unchanged. */
  lemma AbsNegFactor(a: real, w: real)
    ensures Abs((-a) * w) == Abs(a * w)
  {
    MulNeg(a, w);
  }

  /** A factor of magnitude at most one does not enlarge a non-negative quantity. */
  lemma AbsScaleNonneg(b: real, w: real)
    requires b >= 0.0 && -1.0 <= w <= 1.0
    ensures Abs(b * w) <= b
  {
    ScaleWithin(b, w);
    AbsWithin(b * w, b);
  }

  /** A factor of magnitude at most one does not enlarge a quantity. */
  lemma AbsScaleDown(a: real, w: real)
    requires -1.0 <= w <= 1.0
    ensures Abs(a * w) <= Abs(a)
  {
    if a >= 0.0 {
      AbsScaleNonneg(a, w);
    } else {
      AbsScaleNonneg(-a, w);
      AbsNegFactor(a, w);
    }
  }

  /** `v` lies between `a` and `b`, whichever is larger. */
  predicate Between(v: real, a: real, b: real)
  {
    (a <= v <= b) || (b <= v <= a)
  }

  /** A fraction in [0, 1] of a non-negative quantity lies between 0 and it. */
  lemma ScaleNonneg(a: real, r: real)
    requires 0.0 <= r <= 1.0 && a >= 0.0
    ensures 0.0 <= a * r <= a
  {
    assert a - a * r == a * (1.0 - r);
  }

  /** The same for a non-positive quantity. */
  lemma ScaleNonpos(a: real, r: real)
    requires 0.0 <= r <= 1.0 && a <= 0.0
    ensures a <= a * r <= 0.0
  {
    ScaleNonneg(-a, r);
    assert (-a) * r == -(a * r);
  }

  /** Multiplying by a non-negative factor keeps an order. */
  lemma MulMono(c: real, a: real, b: real)
    requires c >= 0.0 && a <= b
    ensures c * a <= c * b
  {
    assert c * b - c * a == c * (b - a);
    assert c * (b - a) >= 0.0;
  }

  /** Multiplying by a positive factor keeps a strict order. */
  lemma MulStrict(c: real, a: real, b: real)
    requires c > 0.0 && a < b
    ensures c * a < c * b
  {
    assert c * b - c * a == c * (b - a);
    assert c * (b - a) > 0.0;
  }

  /** A non-negative factor keeps the sign of the other. */
  lemma MulSign(p: real, e: real)
    requires p >= 0.0
    ensures e >= 0.0 ==> p * e >= 0.0
    ensures e <= 0.0 ==> p * e <= 0.0
  {
    if e >= 0.0 {
      MulMono(p, 0.0, e);
    } else {
      MulMono(p, e, 0.0);
    }
  }

  /** Two inequalities add up. */
  lemma AddLe(a: real, b: real, c: real, d: real)
    requires a <= b && c <= d
    ensures a + c <= b + d
  {
  }

  /** Regrouping a product of three factors. */
  lemma MulAssoc(a: real, b: real, c: real)
    ensures a * (b * c) == (a * b) * c
    ensures (a * b) * c == (a * c) * b
  {
  }

  /** The two weights of a convex mix add up to one. */
  lemma SplitOne(rate: real, d: real)
    ensures (1.0 - rate) * d + rate * d == d
  {
  }

  /** One smoothing step from `x` toward `t` at rate `rate`: what
      `Vector3.lerp`, `Color.lerp`, `MathUtils.lerp` and the explicit `+=`
      updates of the frame loop compute. */
  function Lerp(x: real, t: real, rate: real): real
  {
    x + (t - x) * rate
  }

  /** The remaining gap shrinks to `1 - rate` of its size. */
  lemma LerpGap(x: real, t: real, rate: real)
    ensures t - Lerp(x, t, rate) == (1.0 - rate) * (t - x)
  {
  }

  /** Stepping up toward a larger target does not pass it. */
  lemma LerpUp(x: real, t: real, rate: real)
    requires 0.0 <= rate <= 1.0 && x <= t
    ensures x <= Lerp(x, t, rate) <= t
  {
    ScaleNonneg(t - x, rate);
    assert (t - x) * rate <= t - x;
    assert x + (t - x) * rate <= t;
  }

  /** Stepping down toward a smaller target does not pass it. */
  lemma LerpDown(x: real, t: real, rate: real)
    requires 0.0 <= rate <= 1.0 && t <= x
    ensures t <= Lerp(x, t, rate) <= x
  {
    ScaleNonpos(t - x, rate);
    assert t - x <= (t - x) * rate;
    assert t <= x + (t - x) * rate;
  }

  /** With a rate in [0, 1] a step lands between the value and its target:
      smoothing never overshoots. */
  lemma LerpBetween(x: real, t: real, rate: real)
    requires 0.0 <= rate <= 1.0
    ensures Between(Lerp(x, t, rate), x, t)
  {
    if x <= t { LerpUp(x, t, rate); } else { LerpDown(x, t, rate); }
  }

  /** A step between two points of an interval stays in it. */
  lemma LerpStaysIn(x: real, t: real, rate: real, lo: real, hi: real)
    requires lo <= x <= hi && lo <= t <= hi && 0.0 <= rate <= 1.0
    ensures lo <= Lerp(x, t, rate) <= hi
  {
    LerpBetween(x, t, rate);
  }

  /** The difference of two steps at one rate is the convex mix of the
      differences. */
  lemma LerpDifference(a: real, a': real, t: real, t': real, rate: real)
    ensures Lerp(a, t, rate) - Lerp(a', t', rate) == (1.0 - rate) * (a - a') + rate * (t - t')
  {
  }

  /** A convex mix of two quantities at most `d` is at most `d`. */
  lemma ConvexUpper(u: real, v: real, rate: real, d: real)
    requires 0.0 <= rate <= 1.0
    requires u <= d && v <= d
    ensures (1.0 - rate) * u + rate * v <= d
  {
    MulMono(1.0 - rate, u, d);
    MulMono(rate, v, d);
    AddLe((1.0 - rate) * u, (1.0 - rate) * d, rate * v, rate * d);
    SplitOne(rate, d);
  }

  /** A convex mix of two quantities at least `e` is at least `e`. */
  lemma ConvexLower(u: real, v: real, rate: real, e: real)
    requires 0.0 <= rate <= 1.0
    requires e <= u && e <= v
    ensures e <= (1.0 - rate) * u + rate * v
  {
    MulMono(1.0 - rate, e, u);
    MulMono(rate, e, v);
    AddLe((1.0 - rate) * e, (1.0 - rate) * u, rate * e, rate * v);
    SplitOne(rate, e);
  }

  /** Smoothing does not let a deviation grow: if two values and their two
      targets are each within `d`, so are the two stepped values. */
  lemma LerpKeepsDistance(a: real, a': real, t: real, t': real, rate: real, d: real)
    requires 0.0 <= rate <= 1.0
    requires Abs(a - a') <= d && Abs(t - t') <= d
    ensures Abs(Lerp(a, t, rate) - Lerp(a', t', rate)) <= d
  {
    LerpDifference(a, a', t, t', rate);
    ConvexUpper(a - a', t - t', rate, d);
    ConvexLower(a - a', t - t', rate, -d);
  }

  /** `b` to the power `n`. */
  function Pow(b: real, n: nat): real
  {
    if n == 0 then 1.0 else b * Pow(b, n - 1)
  }

  /** Powers of a factor in [0, 1] stay in [0, 1] and do not grow. */
  lemma {:induction false} PowInUnit(q: real, n: nat)
    requires 0.0 <= q <= 1.0
    ensures 0.0 <= Pow(q, n) <= 1.0
    ensures Pow(q, n + 1) <= Pow(q, n)
  {
    if n > 0 {
      PowInUnit(q, n - 1);
    }
    var p := Pow(q, n);
    assert Pow(q, n + 1) == q * p;
    MulMono(q, p, 1.0);
    MulMono(p, 0.0, q);
    MulMono(p, q, 1.0);
    assert q * p == p * q;
  }

  /** Bernoulli's inequality in the form the convergence bound needs:
      `q^n * (1 + n (1 - q)) <= 1` for `q` in [0, 1]. */
  lemma {:induction false} PowBernoulli(q: real, n: nat)
    requires 0.0 <= q <= 1.0
    ensures Pow(q, n) * (1.0 + (n as real) * (1.0 - q)) <= 1.0
  {
    if n > 0 {
      PowBernoulli(q, n - 1);
      PowInUnit(q, n - 1);
      var s := 1.0 - q;
      var m := (n - 1) as real;
      var p := Pow(q, n - 1);
      var grow := q * (1.0 + (m + 1.0) * s);
      BernoulliStep(q, m);
      MulMono(p, grow, 1.0 + m * s);
      assert Pow(q, n) == q * p;
      MulAssoc(q, p, 1.0 + (m + 1.0) * s);
      assert (n as real) == m + 1.0;
    }
  }

  /** The one-step inequality behind `PowBernoulli`. */
  lemma BernoulliStep(q: real, m: real)
    requires 0.0 <= q <= 1.0 && m >= 0.0
    ensures q * (1.0 + (m + 1.0) * (1.0 - q)) <= 1.0 + m * (1.0 - q)
  {
    var s := 1.0 - q;
    assert q * (1.0 + (m + 1.0) * s) == 1.0 + m * s - (s * s) * (m + 1.0);
    MulMono(s, 0.0, s);
    MulMono(s * s, 0.0, m + 1.0);
  }

  /** Bernoulli's inequality written with the rate: `(1 - rate)^n * (1 + n rate) <= 1`. */
  lemma {:induction false} PowBernoulliRate(rate: real, n: nat)
    requires 0.0 <= rate <= 1.0
    ensures Pow(1.0 - rate, n) * (1.0 + (n as real) * rate) <= 1.0
  {
    PowBernoulli(1.0 - rate, n);
    assert 1.0 - (1.0 - rate) == rate;
  }

  /** The facts about `(1 - rate)^n` that convergence uses. */
  lemma ConvergenceFactor(rate: real, n: nat)
    requires 0.0 <= rate <= 1.0
    ensures Pow(1.0 - rate, n) >= 0.0 && (n as real) * rate >= 0.0
    ensures Pow(1.0 - rate, n) * (1.0 + (n as real) * rate) <= 1.0
  {
    PowInUnit(1.0 - rate, n);
    PowBernoulliRate(rate, n);
    MulSign(rate, n as real);
  }

  /** The value after `n` frames of smoothing from `x` toward a fixed `t`. */
  function SmoothN(x: real, t: real, rate: real, n: nat): real
  {
    if n == 0 then x else Lerp(SmoothN(x, t, rate, n - 1), t, rate)
  }

  /** A step from `t - gap` leaves `(1 - rate) * gap` to go. */
  lemma LerpGapOf(t: real, gap: real, rate: real)
    ensures t - Lerp(t - gap, t, rate) == (1.0 - rate) * gap
  {
  }

  /** After `n` frames the gap to the target is `(1 - rate)^n` of the first gap. */
  lemma {:induction false} SmoothNGap(x: real, t: real, rate: real, n: nat)
    ensures t - SmoothN(x, t, rate, n) == Pow(1.0 - rate, n) * (t - x)
  {
    if n > 0 {
      SmoothNGap(x, t, rate, n - 1);
      var q := 1.0 - rate;
      var p := Pow(q, n - 1);
      var pg := p * (t - x);
      var prev := SmoothN(x, t, rate, n - 1);
      assert prev == t - pg;
      assert SmoothN(x, t, rate, n) == Lerp(t - pg, t, rate);
      LerpGapOf(t, pg, rate);
      MulAssoc(q, p, t - x);
    }
  }

  /** Smoothing toward a fixed target approaches it monotonically from the
      side it starts on and never overshoots. */
  lemma {:induction false} SmoothNMonotone(x: real, t: real, rate: real, n: nat)
    requires 0.0 <= rate <= 1.0
    ensures x <= t ==> SmoothN(x, t, rate, n) <= SmoothN(x, t, rate, n + 1) <= t
    ensures t <= x ==> t <= SmoothN(x, t, rate, n + 1) <= SmoothN(x, t, rate, n)
  {
    SmoothNGap(x, t, rate, n);
    PowInUnit(1.0 - rate, n);
    var p := Pow(1.0 - rate, n);
    var cur := SmoothN(x, t, rate, n);
    assert SmoothN(x, t, rate, n + 1) == Lerp(cur, t, rate);
    MulSign(p, t - x);
    if x <= t {
      LerpUp(cur, t, rate);
    }
    if t <= x {
      LerpDown(cur, t, rate);
    }
  }

  /** Scaling by a non-negative factor scales the magnitude. */
  lemma AbsScale(p: real, e: real)
    requires p >= 0.0
    ensures Abs(p * e) == p * Abs(e)
  {
    if e < 0.0 {
      MulMono(p, e, 0.0);
      assert p * (-e) == -(p * e);
    } else {
      MulMono(p, 0.0, e);
    }
  }

  /** A gap `p * d` weighted by `k` stays within `d` when `p * k <= 1`. */
  lemma ScaledGap(p: real, d: real, k: real)
    requires p >= 0.0 && d >= 0.0 && p * k <= 1.0
    ensures (p * d) * k <= d
  {
    MulAssoc(p, d, k);
    MulMono(d, p * k, 1.0);
  }

  /** If `g * (1 + nr) <= d <= nr * eps` then `g <= eps`. */
  lemma BelowThreshold(g: real, nr: real, d: real, eps: real)
    requires g >= 0.0 && nr >= 0.0 && eps > 0.0
    requires g * (1.0 + nr) <= d && d <= nr * eps
    ensures g <= eps
  {
    var k := 1.0 + nr;
    assert k * eps == eps + nr * eps;
    if g > eps {
      MulStrict(k, eps, g);
    }
  }

  /** The arithmetic core of convergence: a gap `g` scaled by `p` from `e`,
      with `p * (1 + nr) <= 1`, is within `1 / (1 + nr)` of `e`. */
  lemma ScaledGapConverges(e: real, g: real, p: real, nr: real)
    requires g == p * e
    requires p >= 0.0 && nr >= 0.0 && p * (1.0 + nr) <= 1.0
    ensures Abs(g) * (1.0 + nr) <= Abs(e)
  {
    AbsScale(p, e);
    ScaledGap(p, Abs(e), 1.0 + nr);
  }

  /** Convergence: after `n` frames at a positive rate the gap is at most
      the first gap divided by `1 + n * rate`. */
  lemma {:induction false} SmoothNConverges(x: real, t: real, rate: real, n: nat)
    requires 0.0 < rate <= 1.0
    ensures Abs(t - SmoothN(x, t, rate, n)) * (1.0 + (n as real) * rate) <= Abs(t - x)
  {
    SmoothNGapConverges(x, t, rate, n, SmoothN(x, t, rate, n), Pow(1.0 - rate, n));
  }

  /** `SmoothNConverges` with the smoothed value `s` and the power `p` named. */
  lemma SmoothNGapConverges(x: real, t: real, rate: real, n: nat, s: real, p: real)
    requires 0.0 < rate <= 1.0 && s == SmoothN(x, t, rate, n) && p == Pow(1.0 - rate, n)
    ensures Abs(t - s) * (1.0 + (n as real) * rate) <= Abs(t - x)
  {
    SmoothNGap(x, t, rate, n);
    ConvergenceFactor(rate, n);
    ScaledGapConverges(t - x, t - s, p, (n as real) * rate);
  }

  /** So the gap falls to `eps > 0` or below once `n * rate * eps` reaches
      the first gap. */
  lemma {:induction false} SmoothNWithin(x: real, t: real, rate: real, n: nat, eps: real)
    requires 0.0 < rate <= 1.0 && eps > 0.0
    requires (n as real) * rate * eps >= Abs(t - x)
    ensures Abs(t - SmoothN(x, t, rate, n)) <= eps
  {
    SmoothNConverges(x, t, rate, n);
    MulSign(rate, n as real);
    BelowThreshold(Abs(t - SmoothN(x, t, rate, n)), (n as real) * rate, Abs(t - x), eps);
  }
}
