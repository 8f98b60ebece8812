/**
 * The win/draw/loss probability engine: two Elo ratings and an engine
 * evaluation in pawns become a normalised (white win, draw, black win) triple.
 *
 * Every quantity is an exact real. The transcendental operations come in
 * through a `Transcendentals` record whose `Valid` facts are all the
 * contracts below assume about them.
 */
module Probability {
  import opened RealMath

  /** Hard floor and ceiling on the draw mass before normalisation. */
  const DrawFloor: real := 0.05
  const DrawCeiling: real := 0.65

  /** A (white win, draw, black win) triple. */
  datatype Outcome = Outcome(win: real, draw: real, loss: real) {

    function Sum(): real {
      win + draw + loss
    }

    predicate NonNegative() {
      win >= 0.0 && draw >= 0.0 && loss >= 0.0
    }

    /** The same triple seen from the other side of the board. */
    function Swap(): (o: Outcome)
      ensures o.Sum() == Sum()
    {
      Outcome(loss, draw, win)
    }

    /** A probability distribution over the three results. */
    predicate IsDistribution() {
      && 0.0 <= win <= 1.0
      && 0.0 <= draw <= 1.0
      && 0.0 <= loss <= 1.0
      && Sum() == 1.0
    }
  }

  /** The logistic function 1 / (1 + e ** -x). */
  function Sigmoid(t: Transcendentals, x: real): (s: real)
    requires t.Valid()
    ensures 0.0 < s < 1.0
  {
    1.0 / (1.0 + t.exp(-x))
  }

  /** How many rating points one pawn of evaluation is worth, for players of average rating `avg`. */
  function SensitivityK(t: Transcendentals, avg: real): (k: real)
    requires t.Valid()
    ensures 50.0 < k < 200.0
  {
    50.0 + 150.0 * Sigmoid(t, (avg - 1800.0) / 400.0)
  }

  /** The draw rate of a balanced position between players of average rating `avg`. */
  function DrawBase(t: Transcendentals, avg: real): (d: real)
    requires t.Valid()
    ensures 0.20 < d < 0.50
  {
    0.20 + 0.30 * Sigmoid(t, (avg - 1800.0) / 500.0)
  }

  /** The players' mean rating: it lies between the two ratings and does not depend on their order. */
  function AverageRating(white: real, black: real): (avg: real)
    ensures Min(white, black) <= avg <= Max(white, black)
    ensures avg - Min(white, black) == Max(white, black) - avg
  {
    (white + black) / 2.0
  }

  /** White's total advantage on the rating scale: the rating gap plus the evaluation converted to rating points. */
  function EffectiveDelta(t: Transcendentals, white: real, black: real, eval: real): (delta: real)
    requires t.Valid()
    ensures eval > 0.0 ==> white - black + 50.0 * eval < delta < white - black + 200.0 * eval
    ensures eval == 0.0 ==> delta == white - black
    ensures eval < 0.0 ==> white - black + 200.0 * eval < delta < white - black + 50.0 * eval
  {
    (white - black) + eval * SensitivityK(t, AverageRating(white, black))
  }

  /** The classic Elo expected score of white, draws ignored. */
  function ExpectedScore(t: Transcendentals, delta: real): (s: real)
    requires t.Valid()
    ensures 0.0 < s < 1.0
  {
    1.0 / (1.0 + t.pow10(-delta / 400.0))
  }

  /** How decisive the position is: 1 when level, shrinking with the rating gap and the evaluation. */
  function Decay(t: Transcendentals, delta: real, eval: real): (alpha: real)
    requires t.Valid()
    ensures 0.0 < alpha <= 1.0
  {
    var decay1 := t.exp(-Abs(delta) / 600.0);
    var decay2 := t.exp(-t.pow15(Abs(eval)) / 3.0);
    assert 0.0 < decay1 <= 1.0 && 0.0 < decay2 <= 1.0;
    MulAtMostOne(decay1, decay2);
    decay1 * decay2
  }

  /** The draw mass before the clamp: at least 30% of the base rate survives however decisive the position. */
  function RawDraw(t: Transcendentals, white: real, black: real, eval: real): (d: real)
    requires t.Valid()
    ensures var base := DrawBase(t, AverageRating(white, black));
            0.3 * base < d <= base
  {
    var alpha := Decay(t, EffectiveDelta(t, white, black, eval), eval);
    DrawBase(t, AverageRating(white, black)) * (0.3 + 0.7 * alpha)
  }

  /** `x` forced into the interval [lo, hi]. */
  function Clamp(x: real, lo: real, hi: real): (r: real)
    requires lo <= hi
    ensures lo <= r <= hi
    ensures lo <= x <= hi ==> r == x
    ensures x < lo ==> r == lo
    ensures x > hi ==> r == hi
  {
    Max(lo, Min(hi, x))
  }

  function ClampedDraw(t: Transcendentals, white: real, black: real, eval: real): (d: real)
    requires t.Valid()
    ensures DrawFloor <= d <= DrawCeiling
  {
    Clamp(RawDraw(t, white, black, eval), DrawFloor, DrawCeiling)
  }

  /**
   * The three masses before normalisation: the draw mass, and the expected
   * score split around it, floored at zero.
   */
  function Unnormalised(t: Transcendentals, white: real, black: real, eval: real): (u: Outcome)
    requires t.Valid()
    ensures u.NonNegative()
    ensures u.draw == ClampedDraw(t, white, black, eval)
    ensures u.Sum() >= 1.0
  {
    var s := ExpectedScore(t, EffectiveDelta(t, white, black, eval));
    var d := ClampedDraw(t, white, black, eval);
    Outcome(Max(0.0, s - 0.5 * d), d, Max(0.0, (1.0 - s) - 0.5 * d))
  }

  /** Each mass divided by the total. */
  function Normalise(u: Outcome): (r: Outcome)
    requires u.NonNegative() && u.Sum() > 0.0
    ensures r.IsDistribution()
    ensures r.win * u.Sum() == u.win
    ensures r.draw * u.Sum() == u.draw
    ensures r.loss * u.Sum() == u.loss
  {
    var total := u.Sum();
    var r := Outcome(u.win / total, u.draw / total, u.loss / total);
    DivideByTotal(u.win, total);
    DivideByTotal(u.draw, total);
    DivideByTotal(u.loss, total);
    SumOfQuotients(u.win, u.draw, u.loss, total);
    r
  }

  /** White win, draw and black win probabilities for the given ratings and evaluation. */
  function CalculateProbabilities(t: Transcendentals, white: real, black: real, eval: real): (r: Outcome)
    requires t.Valid()
    ensures r.IsDistribution()
  {
    Normalise(Unnormalised(t, white, black, eval))
  }

  // Arithmetic helpers.

  lemma MulAtMostOne(a: real, b: real)
    requires 0.0 < a <= 1.0 && 0.0 < b <= 1.0
    ensures 0.0 < a * b <= 1.0
  {
    assert a * b <= a * 1.0;
  }

  lemma SumOfQuotients(a: real, b: real, c: real, total: real)
    requires total > 0.0 && a + b + c == total
    ensures a / total + b / total + c / total == 1.0
  {
    assert a / total + b / total + c / total == (a + b + c) / total;
  }

  lemma DivideByTotal(x: real, total: real)
    requires 0.0 <= x <= total && total > 0.0
    ensures 0.0 <= x / total <= 1.0
    ensures (x / total) * total == x
  {
  }
}
