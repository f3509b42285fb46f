/**
 * The weighted aggregator of `compute_score_row`: five sub-scores and five
 * weights give a weighted sum, which is divided by the largest weighted sum the
 * weights allow, scaled to 0..100, clamped and rounded to an integer.
 */
module Aggregate {

  /** The five configurable weights, in the order industry, growth, tech, region, contact. */
  datatype Weights = Weights(industry: real, growth: real, tech: real, region: real, contact: real)

  /** The five sub-scores of one lead, in the same order as the weights. */
  datatype SubScores = SubScores(industry: real, growth: real, tech: real, region: real, contact: real)

  /** The configuration surface only offers weights of zero or more. */
  predicate NonNegative(w: Weights) {
    w.industry >= 0.0 && w.growth >= 0.0 && w.tech >= 0.0 && w.region >= 0.0 && w.contact >= 0.0
  }

  /** The degenerate configuration with every weight at zero. */
  const NoWeights := Weights(0.0, 0.0, 0.0, 0.0, 0.0)

  /** The fixed per-dimension caps: industry 1, growth 2, tech 2, region 1, contact 1. */
  const Caps := SubScores(1.0, 2.0, 2.0, 1.0, 1.0)

  /** The sub-scores of a lead that earns nothing anywhere. */
  const Zeros := SubScores(0.0, 0.0, 0.0, 0.0, 0.0)

  /** Every sub-score lies between zero and its cap. */
  predicate InBounds(s: SubScores) {
    && 0.0 <= s.industry <= Caps.industry
    && 0.0 <= s.growth <= Caps.growth
    && 0.0 <= s.tech <= Caps.tech
    && 0.0 <= s.region <= Caps.region
    && 0.0 <= s.contact <= Caps.contact
  }

  /** Sub-scores `s` are nowhere above sub-scores `t`. */
  predicate Below(s: SubScores, t: SubScores) {
    s.industry <= t.industry && s.growth <= t.growth && s.tech <= t.tech
    && s.region <= t.region && s.contact <= t.contact
  }

  /**
   * The raw weighted sum of the sub-scores: 0 for a lead that earns nothing,
   * and for in-bound sub-scores and non-negative weights between 0 and the sum
   * of each weight times its cap.
   */
  function Weighted(s: SubScores, w: Weights): (r: real)
    ensures s == Zeros ==> r == 0.0
    ensures InBounds(s) && NonNegative(w) ==>
      0.0 <= r <= w.industry + 2.0 * w.growth + 2.0 * w.tech + w.region + w.contact
  {
    WeightedBound(s, w);
    s.industry * w.industry + s.growth * w.growth + s.tech * w.tech
    + s.region * w.region + s.contact * w.contact
  }

  /** The bound on the weighted sum, stated on its five terms. */
  lemma WeightedBound(s: SubScores, w: Weights)
    ensures InBounds(s) && NonNegative(w) ==>
      && 0.0 <= s.industry * w.industry + s.growth * w.growth + s.tech * w.tech + s.region * w.region + s.contact * w.contact
      && s.industry * w.industry + s.growth * w.growth + s.tech * w.tech + s.region * w.region + s.contact * w.contact
         <= w.industry + 2.0 * w.growth + 2.0 * w.tech + w.region + w.contact
  {
    if InBounds(s) && NonNegative(w) {
      CappedTerms(s, w);
      SumLe(s.industry * w.industry, s.growth * w.growth, s.tech * w.tech, s.region * w.region, s.contact * w.contact,
            w.industry, 2.0 * w.growth, 2.0 * w.tech, w.region, w.contact);
    }
  }

  /** Each in-bound term lies between 0 and weight times cap. */
  lemma CappedTerms(s: SubScores, w: Weights)
    requires InBounds(s) && NonNegative(w)
    ensures 0.0 <= s.industry * w.industry <= w.industry
    ensures 0.0 <= s.growth * w.growth <= 2.0 * w.growth
    ensures 0.0 <= s.tech * w.tech <= 2.0 * w.tech
    ensures 0.0 <= s.region * w.region <= w.region
    ensures 0.0 <= s.contact * w.contact <= w.contact
  {
    ScaledLe(0.0, s.industry, w.industry);
    ScaledLe(s.industry, 1.0, w.industry);
    ScaledLe(0.0, s.growth, w.growth);
    ScaledLe(s.growth, 2.0, w.growth);
    ScaledLe(0.0, s.tech, w.tech);
    ScaledLe(s.tech, 2.0, w.tech);
    ScaledLe(0.0, s.region, w.region);
    ScaledLe(s.region, 1.0, w.region);
    ScaledLe(0.0, s.contact, w.contact);
    ScaledLe(s.contact, 1.0, w.contact);
  }

  /**
   * The largest weighted sum these weights allow: that of a lead at every cap,
   * each weight times its cap. With non-negative weights no in-bound lead
   * exceeds it and it is not negative.
   */
  function MaxWeighted(w: Weights): (r: real)
    ensures r == w.industry + 2.0 * w.growth + 2.0 * w.tech + w.region + w.contact
    ensures NonNegative(w) ==> r >= 0.0
    ensures NonNegative(w) ==> forall s :: InBounds(s) ==> Weighted(s, w) <= r
  {
    Weighted(Caps, w)
  }

  /**
   * The weighted sum as a percentage of the largest one: when that maximum is
   * positive, the percentage times the maximum is 100 times the weighted sum;
   * otherwise the percentage is 0.
   */
  function Percent(s: SubScores, w: Weights): (r: real)
    ensures MaxWeighted(w) > 0.0 ==> r * MaxWeighted(w) == 100.0 * Weighted(s, w)
    ensures MaxWeighted(w) <= 0.0 ==> r == 0.0
  {
    var m := MaxWeighted(w);
    if m > 0.0 then
      var q := Weighted(s, w) / m;
      assert q * m == Weighted(s, w);
      q * 100.0
    else
      0.0
  }

  /** Python's `max(0, min(100, x))`. */
  function Clamp(x: real): (r: real)
    ensures 0.0 <= r <= 100.0
    ensures 0.0 <= x <= 100.0 ==> r == x
  {
    if x > 100.0 then 100.0 else if x < 0.0 then 0.0 else x
  }

  /**
   * Python's `round` on a number: the nearest integer, and of two equally
   * near integers the even one.
   */
  function RoundHalfEven(x: real): (r: int)
    ensures x - 0.5 <= r as real <= x + 0.5
    ensures (r as real - x == 0.5 || x - r as real == 0.5) ==> r % 2 == 0
  {
    var f := x.Floor;
    var d := x - f as real;
    if d < 0.5 then f
    else if d > 0.5 then f + 1
    else if f % 2 == 0 then f
    else f + 1
  }

  /** The final lead score: the clamped percentage, rounded. */
  function Score(s: SubScores, w: Weights): (r: int)
    ensures 0 <= r <= 100
    ensures MaxWeighted(w) <= 0.0 ==> r == 0
  {
    RoundHalfEven(Clamp(Percent(s, w)))
  }

  /** Any integer that is nearest to `x`, even on a tie, is the rounding of `x`. */
  lemma RoundHalfEvenUnique(x: real, n: int)
    requires x - 0.5 <= n as real <= x + 0.5
    requires (n as real - x == 0.5 || x - n as real == 0.5) ==> n % 2 == 0
    ensures n == RoundHalfEven(x)
  {
  }

  /** Rounding never reverses the order of two numbers. */
  lemma RoundHalfEvenMonotone(x: real, y: real)
    requires x <= y
    ensures RoundHalfEven(x) <= RoundHalfEven(y)
  {
  }

  /** With non-negative weights the weighted sum lies between 0 and its maximum. */
  lemma WeightedWithinMax(s: SubScores, w: Weights)
    requires InBounds(s) && NonNegative(w)
    ensures 0.0 <= Weighted(s, w) <= MaxWeighted(w)
  {
    WeightedMonotone(Zeros, s, w);
    WeightedMonotone(s, Caps, w);
  }

  /** With non-negative weights, raising sub-scores never lowers the weighted sum. */
  lemma WeightedMonotone(s: SubScores, t: SubScores, w: Weights)
    requires Below(s, t) && NonNegative(w)
    ensures Weighted(s, w) <= Weighted(t, w)
  {
    var a1, a2, a3, a4, a5 := s.industry * w.industry, s.growth * w.growth, s.tech * w.tech,
      s.region * w.region, s.contact * w.contact;
    var b1, b2, b3, b4, b5 := t.industry * w.industry, t.growth * w.growth, t.tech * w.tech,
      t.region * w.region, t.contact * w.contact;
    WeightedTerms(s, w);
    WeightedTerms(t, w);
    ScaledLe(s.industry, t.industry, w.industry);
    ScaledLe(s.growth, t.growth, w.growth);
    ScaledLe(s.tech, t.tech, w.tech);
    ScaledLe(s.region, t.region, w.region);
    ScaledLe(s.contact, t.contact, w.contact);
    SumLe(a1, a2, a3, a4, a5, b1, b2, b3, b4, b5);
  }

  /** The weighted sum term by term. */
  lemma WeightedTerms(s: SubScores, w: Weights)
    ensures Weighted(s, w) == s.industry * w.industry + s.growth * w.growth + s.tech * w.tech
      + s.region * w.region + s.contact * w.contact
  {
  }

  lemma ScaledLe(a: real, b: real, k: real)
    requires a <= b && k >= 0.0
    ensures a * k <= b * k
  {
  }

  /** Termwise smaller sums of five terms are smaller. */
  lemma SumLe(a1: real, a2: real, a3: real, a4: real, a5: real, b1: real, b2: real, b3: real, b4: real, b5: real)
    requires a1 <= b1 && a2 <= b2 && a3 <= b3 && a4 <= b4 && a5 <= b5
    ensures a1 + a2 + a3 + a4 + a5 <= b1 + b2 + b3 + b4 + b5
  {
  }

  /** Dividing by the same positive number keeps the order. */
  lemma DivLe(a: real, b: real, m: real)
    requires a <= b && m > 0.0
    ensures a / m <= b / m
  {
    var inv := 1.0 / m;
    assert inv > 0.0;
    assert a / m == a * inv && b / m == b * inv;
    ScaledLe(a, b, inv);
  }

  /** For in-bound sub-scores and non-negative weights the clamp never changes the percentage. */
  lemma ClampInactive(s: SubScores, w: Weights)
    requires InBounds(s) && NonNegative(w)
    ensures 0.0 <= Percent(s, w) <= 100.0
    ensures Clamp(Percent(s, w)) == Percent(s, w)
  {
    WeightedWithinMax(s, w);
    var m := MaxWeighted(w);
    if m > 0.0 {
      var q := Weighted(s, w) / m;
      assert q * m == Weighted(s, w);
      assert 0.0 <= q <= 1.0;
    }
  }

  /** With non-negative weights the maximum is zero exactly when every weight is. */
  lemma MaxZeroIffNoWeights(w: Weights)
    requires NonNegative(w)
    ensures MaxWeighted(w) == 0.0 <==> w == NoWeights
  {
  }

  /** All-zero weights score every lead 0, without dividing. */
  lemma NoWeightsScoreZero(s: SubScores)
    ensures Score(s, NoWeights) == 0
  {
  }

  /** Every weight multiplied by `k`. */
  function Scale(w: Weights, k: real): Weights {
    Weights(k * w.industry, k * w.growth, k * w.tech, k * w.region, k * w.contact)
  }

  /** Scaling the weights scales the weighted sum by the same factor. */
  lemma WeightedScale(s: SubScores, w: Weights, k: real)
    ensures Weighted(s, Scale(w, k)) == k * Weighted(s, w)
  {
    assert s.industry * (k * w.industry) == k * (s.industry * w.industry);
    assert s.growth * (k * w.growth) == k * (s.growth * w.growth);
    assert s.tech * (k * w.tech) == k * (s.tech * w.tech);
    assert s.region * (k * w.region) == k * (s.region * w.region);
    assert s.contact * (k * w.contact) == k * (s.contact * w.contact);
  }

  /** A common positive factor cancels out of a quotient. */
  lemma DivCancel(a: real, m: real, k: real)
    requires m > 0.0 && k > 0.0
    ensures (k * a) / (k * m) == a / m
  {
    var q := (k * a) / (k * m);
    assert q * (k * m) == k * a;
    assert k * (q * m) == k * a;
    assert q * m == a;
  }

  /** Multiplying every weight by the same positive factor leaves the score unchanged. */
  lemma ScaleInvariant(s: SubScores, w: Weights, k: real)
    requires k > 0.0
    ensures Score(s, Scale(w, k)) == Score(s, w)
  {
    PercentScaleInvariant(s, w, k);
  }

  lemma PercentScaleInvariant(s: SubScores, w: Weights, k: real)
    requires k > 0.0
    ensures Percent(s, Scale(w, k)) == Percent(s, w)
  {
    var w' := Scale(w, k);
    var a, m := Weighted(s, w), MaxWeighted(w);
    WeightedScale(s, w, k);
    WeightedScale(Caps, w, k);
    assert Weighted(s, w') == k * a;
    assert MaxWeighted(w') == k * m;
    if m > 0.0 {
      DivCancel(a, m, k);
      assert Weighted(s, w') / MaxWeighted(w') == a / m;
    } else {
      assert k * m <= 0.0;
    }
  }

  /**
   * With non-negative weights, a lead whose sub-scores are nowhere lower
   * scores at least as high; in particular raising one sub-score never lowers the score.
   */
  lemma ScoreMonotone(s: SubScores, t: SubScores, w: Weights)
    requires Below(s, t) && NonNegative(w)
    ensures Score(s, w) <= Score(t, w)
  {
    WeightedMonotone(s, t, w);
    var m := MaxWeighted(w);
    if m > 0.0 {
      var a, b := Weighted(s, w), Weighted(t, w);
      DivLe(a, b, m);
      ScaledLe(a / m, b / m, 100.0);
      assert Percent(s, w) <= Percent(t, w);
    }
    RoundHalfEvenMonotone(Clamp(Percent(s, w)), Clamp(Percent(t, w)));
  }

  /** A lead at every cap scores 100 under any weights that are not all zero. */
  lemma CapsScoreHundred(w: Weights)
    requires NonNegative(w) && w != NoWeights
    ensures Score(Caps, w) == 100
  {
    var m := MaxWeighted(w);
    assert m > 0.0;
    assert m / m == 1.0;
    RoundHalfEvenUnique(100.0, 100);
  }

  /** A lead that earns nothing anywhere scores 0 under any weights, negative ones included. */
  lemma ZerosScoreZero(w: Weights)
    ensures Score(Zeros, w) == 0
  {
    assert Weighted(Zeros, w) == 0.0;
    assert Percent(Zeros, w) == 0.0;
    RoundHalfEvenUnique(0.0, 0);
  }
}
