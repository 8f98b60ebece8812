/**
 * What the probability engine promises beyond a well-formed distribution:
 * the draw clamp never binds, the triple is symmetric under swapping the
 * players, and the ordering of the win and loss outputs follows the Elo
 * expected score.
 */
module ProbabilityProperties {
  import opened RealMath
  import opened Probability

  /** Before the clamp the draw mass already lies strictly inside (0.06, 0.5). */
  lemma RawDrawBounds(t: Transcendentals, white: real, black: real, eval: real)
    requires t.Valid()
    ensures 0.06 < RawDraw(t, white, black, eval) < 0.5
  {
    var alpha := Decay(t, EffectiveDelta(t, white, black, eval), eval);
    var base := DrawBase(t, AverageRating(white, black));
    var factor := 0.3 + 0.7 * alpha;
    assert 0.3 < factor <= 1.0;
    assert base * factor <= base * 1.0;
    assert base * factor > 0.2 * factor by {
      assert (base - 0.2) * factor > 0.0;
    }
  }

  /** Hence the [DrawFloor, DrawCeiling] clamp never changes the draw mass. */
  lemma ClampNeverBinds(t: Transcendentals, white: real, black: real, eval: real)
    requires t.Valid()
    ensures ClampedDraw(t, white, black, eval) == RawDraw(t, white, black, eval)
  {
    RawDrawBounds(t, white, black, eval);
  }

  /** Swapping the players and negating the evaluation negates white's effective advantage. */
  lemma EffectiveDeltaAntisymmetric(t: Transcendentals, white: real, black: real, eval: real)
    requires t.Valid()
    ensures EffectiveDelta(t, black, white, -eval) == -EffectiveDelta(t, white, black, eval)
  {
    assert AverageRating(black, white) == AverageRating(white, black);
  }

  /** The expected scores of the two sides add up to one. */
  lemma ExpectedScoreComplement(t: Transcendentals, delta: real)
    requires t.Valid()
    ensures ExpectedScore(t, -delta) == 1.0 - ExpectedScore(t, delta)
  {
    var a := t.pow10(-delta / 400.0);
    assert -(-delta) / 400.0 == delta / 400.0;
    var b := t.pow10(delta / 400.0);
    assert a * b == 1.0;
    calc {
      ExpectedScore(t, -delta);
      1.0 / (1.0 + b);
      { assert 1.0 + b == (a + 1.0) / a; }
      a / (1.0 + a);
      1.0 - 1.0 / (1.0 + a);
      1.0 - ExpectedScore(t, delta);
    }
  }

  /** A level effective advantage gives an expected score of exactly one half. */
  lemma ExpectedScoreEven(t: Transcendentals)
    requires t.Valid()
    ensures ExpectedScore(t, 0.0) == 0.5
  {
    ReciprocalAtZero(t.pow10);
    assert -0.0 / 400.0 == 0.0;
  }

  /** Swapping the players and negating the evaluation swaps the win and loss probabilities and keeps the draw. */
  lemma Symmetry(t: Transcendentals, white: real, black: real, eval: real)
    requires t.Valid()
    ensures CalculateProbabilities(t, black, white, -eval) == CalculateProbabilities(t, white, black, eval).Swap()
  {
    var delta := EffectiveDelta(t, white, black, eval);
    EffectiveDeltaAntisymmetric(t, white, black, eval);
    ExpectedScoreComplement(t, delta);
    assert Abs(-eval) == Abs(eval);
    assert Abs(-delta) == Abs(delta);
    assert RawDraw(t, black, white, -eval) == RawDraw(t, white, black, eval);
    assert Unnormalised(t, black, white, -eval) == Unnormalised(t, white, black, eval).Swap();
  }

  /** White is at least as likely to win as black exactly when white's expected score is at least one half. */
  lemma OrderFollowsScore(t: Transcendentals, white: real, black: real, eval: real)
    requires t.Valid()
    ensures var r := CalculateProbabilities(t, white, black, eval);
            var s := ExpectedScore(t, EffectiveDelta(t, white, black, eval));
            && (r.win >= r.loss <==> s >= 0.5)
            && (r.win == r.loss <==> s == 0.5)
  {
    var u := Unnormalised(t, white, black, eval);
    var r := Normalise(u);
    var total := u.Sum();
    ScaleOrder(u.win, u.loss, r.win, r.loss, total);
  }

  /** Equal ratings and a level evaluation give equal win and loss probabilities. */
  lemma BalancedBaseline(t: Transcendentals, rating: real)
    requires t.Valid()
    ensures CalculateProbabilities(t, rating, rating, 0.0).win == CalculateProbabilities(t, rating, rating, 0.0).loss
  {
    assert EffectiveDelta(t, rating, rating, 0.0) == 0.0;
    ExpectedScoreEven(t);
    OrderFollowsScore(t, rating, rating, 0.0);
  }

  /** When neither zero floor binds the masses already sum to one and normalisation changes nothing. */
  lemma FloorsIdleMeansNoRescale(t: Transcendentals, white: real, black: real, eval: real)
    requires t.Valid()
    requires var s := ExpectedScore(t, EffectiveDelta(t, white, black, eval));
             var d := ClampedDraw(t, white, black, eval);
             s - 0.5 * d >= 0.0 && (1.0 - s) - 0.5 * d >= 0.0
    ensures Unnormalised(t, white, black, eval).Sum() == 1.0
    ensures CalculateProbabilities(t, white, black, eval) == Unnormalised(t, white, black, eval)
  {
  }

  /** After normalisation the draw probability still lies strictly above the clamp floor and below 0.5. */
  lemma NormalisedDrawBounds(t: Transcendentals, white: real, black: real, eval: real)
    requires t.Valid()
    ensures DrawFloor < CalculateProbabilities(t, white, black, eval).draw < 0.5
  {
    ClampNeverBinds(t, white, black, eval);
    RawDrawBounds(t, white, black, eval);
    var u := Unnormalised(t, white, black, eval);
    var r := CalculateProbabilities(t, white, black, eval);
    var total := u.Sum();
    assert total <= 1.0 + 0.5 * u.draw;
    ShareBounds(u.draw, total, r.draw);
  }

  /** Two players rated 1800 in a level position: 32.5% / 35% / 32.5%. */
  lemma EvenScenario(t: Transcendentals)
    requires t.Valid()
    ensures CalculateProbabilities(t, 1800.0, 1800.0, 0.0) == Outcome(0.325, 0.35, 0.325)
  {
    ReciprocalAtZero(t.exp);
    ReciprocalAtZero(t.pow10);
    assert -0.0 == 0.0;
    assert Sigmoid(t, 0.0) == 0.5;
    assert DrawBase(t, 1800.0) == 0.35;
    assert EffectiveDelta(t, 1800.0, 1800.0, 0.0) == 0.0;
    assert Decay(t, 0.0, 0.0) == 1.0;
    assert RawDraw(t, 1800.0, 1800.0, 0.0) == 0.35;
    ExpectedScoreEven(t);
    assert Unnormalised(t, 1800.0, 1800.0, 0.0) == Outcome(0.325, 0.35, 0.325);
  }

  /** A mass d in (0.06, 0.5) taken as a share of a total in [1, 1 + d/2] lies in (DrawFloor, 0.5). */
  lemma ShareBounds(d: real, total: real, share: real)
    requires 0.06 < d < 0.5
    requires 1.0 <= total <= 1.0 + 0.5 * d
    requires share * total == d
    ensures DrawFloor < share < 0.5
  {
    assert (0.5 - share) * total == 0.5 * total - d;
    PositiveFactor(0.5 - share, total);
    assert (share - DrawFloor) * total >= d - DrawFloor - 0.025 * d;
    PositiveFactor(share - DrawFloor, total);
  }

  lemma PositiveFactor(a: real, b: real)
    requires b > 0.0 && a * b > 0.0
    ensures a > 0.0
  {
    assert a == (a * b) / b;
  }

  /** Dividing two masses by the same positive total keeps their order. */
  lemma ScaleOrder(a: real, b: real, x: real, y: real, total: real)
    requires total > 0.0 && x * total == a && y * total == b
    ensures a >= b <==> x >= y
    ensures a == b <==> x == y
  {
    assert a - b == (x - y) * total;
  }
}
