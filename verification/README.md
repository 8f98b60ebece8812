# Chess win-rate evaluation, modelled in Dafny

This project models the probability engine of a small chess win-rate
calculator. Two Elo ratings and an engine evaluation in pawns become a
three-way distribution: white wins, draw, black wins. The model also covers
the two display helpers: the evaluation indicator and the probability bar.

The engine works in exact real arithmetic. The transcendental operations are
`math.exp`, `10 ** x` and `a ** 1.5`. They are calls into the host's math
library, so they are not computed here. They arrive as function-valued fields
of a `RealMath.Transcendentals` record that the caller passes in. The ghost
predicate `Transcendentals.Valid` lists the only facts the proofs use:

- `exp` and `pow10` are positive, and `f(-x)` is the reciprocal of `f(x)`;
- `exp(x) <= 1` when `x <= 0`;
- `pow15(a) >= 0` when `a >= 0`, and `pow15(0) == 0`.

The logistic function is defined from `exp`, as `sigmoid` at chess_probability.py:6-8 does.

Modules:

- `RealMath` (`real_math.dfy`): the `Transcendentals` record and its facts,
  plus Python's `abs`, `max` and `min` on reals.
- `Probability` (`probability.dfy`): sigmoid, the sensitivity `K`, the draw
  base, and the probability composition, step by step.
- `ProbabilityProperties` (`probability_properties.dfy`): the clamp never
  binds, white/black symmetry, ordering follows the expected score, the
  balanced baseline, the bounds on the normalised draw, and the 1800/1800/0
  scenario.
- `EvalLabel` (`eval_label.dfy`): the sign-and-magnitude verdict and its text.
- `ProbabilityBar` (`probability_bar.dfy`): glyph counts, glyph order and the
  printed bar.

## Notes

- No error path for non-finite input: chess_probability.py:18-45 has no
  finiteness check, and reals have no NaN or infinity.
- For finite inputs the clamp at chess_probability.py:35 never binds:
  `ProbabilityProperties.RawDrawBounds` puts the raw draw mass in (0.06, 0.5).
- The white win probability is not monotone in white's rating: K grows with
  the average rating (chess_probability.py:12), so with a strongly negative
  evaluation a higher white rating can shrink the effective delta
  (chess_probability.py:25).

## Model

| member | source | states |
|---|---|---|
| Probability.Sigmoid | chess_probability.py:6-8 | the logistic value lies strictly between 0 and 1 |
| Probability.SensitivityK | chess_probability.py:10-12 | one pawn is worth strictly between 50 and 200 rating points |
| Probability.DrawBase | chess_probability.py:14-16 | the base draw rate lies strictly between 0.20 and 0.50 |
| Probability.AverageRating | chess_probability.py:20 | the average lies between the two ratings, at equal distance from each |
| Probability.EffectiveDelta | chess_probability.py:20-25 | the effective delta is the rating gap shifted by the evaluation at 50 to 200 rating points per pawn, in the evaluation's direction; `ProbabilityProperties.EffectiveDeltaAntisymmetric` relates it to the swapped game |
| Probability.ExpectedScore | chess_probability.py:27 | the Elo expected score lies strictly between 0 and 1 |
| Probability.Decay | chess_probability.py:30-32 | the product of the two decay factors lies in (0, 1] |
| Probability.RawDraw | chess_probability.py:28-34 | the raw draw mass lies above 30% of the base draw rate and never above it; `ProbabilityProperties.RawDrawBounds` places it in (0.06, 0.5) |
| Probability.Clamp | chess_probability.py:35 | the clamped value lies in [lo, hi], equals the input inside the interval, and equals the nearer bound outside it |
| Probability.ClampedDraw | chess_probability.py:34-35 | the draw mass before normalisation lies in [0.05, 0.65] |
| Probability.Unnormalised | chess_probability.py:37-40 | the win and loss masses are non-negative, the draw mass is the clamped draw, and the total is at least 1, so every division is defined |
| Probability.Normalise | chess_probability.py:40-43 | the result is a distribution (each part in [0, 1], sum exactly 1) and each part times the total gives back the input mass |
| Probability.CalculateProbabilities | chess_probability.py:18-45 | the returned triple is a distribution: each part in [0, 1] and the sum exactly 1 |
| ProbabilityProperties.RawDrawBounds | chess_probability.py:28-34 | the raw draw mass lies strictly in (0.06, 0.5) |
| ProbabilityProperties.ClampNeverBinds | chess_probability.py:34-35 | the clamp to [0.05, 0.65] never changes the raw draw mass |
| ProbabilityProperties.EffectiveDeltaAntisymmetric | chess_probability.py:20-25 | swapping the players and negating the evaluation negates the effective rating delta |
| ProbabilityProperties.ExpectedScoreComplement | chess_probability.py:27 | the expected score at -delta is one minus the expected score at delta |
| ProbabilityProperties.ExpectedScoreEven | chess_probability.py:27 | a zero effective delta gives an expected score of exactly 1/2 |
| ProbabilityProperties.Symmetry | chess_probability.py:18-45 | swapping the ratings and negating the evaluation swaps the win and loss outputs and keeps the draw output |
| ProbabilityProperties.OrderFollowsScore | chess_probability.py:27-45 | white's win output is at least black's exactly when the expected score is at least 1/2, and equal exactly when it is 1/2 |
| ProbabilityProperties.BalancedBaseline | chess_probability.py:18-45 | equal ratings and a zero evaluation give equal win and loss outputs |
| ProbabilityProperties.FloorsIdleMeansNoRescale | chess_probability.py:37-45 | when neither zero floor applies, the masses already sum to 1 and the output equals them |
| ProbabilityProperties.NormalisedDrawBounds | chess_probability.py:34-43 | after normalisation the draw output still lies strictly in (0.05, 0.5) |
| ProbabilityProperties.EvenScenario | chess_probability.py:10-45 | ratings 1800 and 1800 with evaluation 0 give exactly (0.325, 0.35, 0.325) |
| EvalLabel.Classify | chess_probability.py:54-66 | the verdict is balanced exactly for 0; otherwise the side is white exactly for a positive evaluation, and the magnitude is the bucket containing the absolute value |
| EvalLabel.Ladder | chess_probability.py:56-65 | for a non-negative size the chosen magnitude's interval contains it; `EvalLabel.BucketsPartition` shows it is the only such magnitude |
| EvalLabel.Label | chess_probability.py:57-66 | the text shows white's king exactly for a white verdict and black's king exactly for a black verdict; `EvalLabel.LabelInjective` shows the nine texts differ |
| EvalLabel.EvalEmoji | chess_probability.py:54-66 | the text shows white's king exactly for a positive evaluation and black's king exactly for a negative one; `EvalLabel.EvalEmojiDeterminesVerdict` ties the text to the verdict |
| EvalLabel.BucketsPartition | chess_probability.py:56-65 | the buckets [0, 0.5), [0.5, 1.5), [1.5, 3.0), [3.0, ∞) partition the non-negative reals, and a size lies in exactly the bucket the threshold ladder picks |
| EvalLabel.ClassifyAntisymmetric | chess_probability.py:54-66 | E and -E get the same magnitude for opposite sides |
| EvalLabel.LabelInjective | chess_probability.py:56-66 | the nine indicator texts are pairwise distinct |
| EvalLabel.EvalEmojiDeterminesVerdict | chess_probability.py:54-66 | two evaluations print the same indicator text exactly when they get the same verdict |
| ProbabilityBar.Trunc | chess_probability.py:49-51 | `int` rounds toward zero: the result is within 1 of the input, on the side nearer zero |
| ProbabilityBar.Cells | chess_probability.py:49-51 | for a non-negative probability the count is the floor of thirty times it; for a negative one it is not positive |
| ProbabilityBar.Bar | chess_probability.py:47-52 | the glyph sequence is as long as the three counts together, each taken as zero when negative; `ProbabilityBar.BarTally`, `ProbabilityBar.BarOrdered` and `ProbabilityBar.BarLength` give its contents, order and length |
| ProbabilityBar.Repeat | chess_probability.py:52 | repeating a glyph n times gives n copies, and none when n is not positive |
| ProbabilityBar.Render | chess_probability.py:52 | each glyph is printed as its one character, in order |
| ProbabilityBar.BarText | chess_probability.py:52 | the printed bar is the die and bracket, then the glyph characters, then a closing bracket |
| ProbabilityBar.BarTally | chess_probability.py:47-52 | the bar holds exactly the truncated count of each glyph kind, or none when that count is not positive |
| ProbabilityBar.CellsOfProbability | chess_probability.py:49-51 | for a non-negative probability the count is the floor of thirty times it |
| ProbabilityBar.BarOrdered | chess_probability.py:52 | all white-win glyphs come before all draw glyphs, which come before all black-win glyphs |
| ProbabilityBar.BarLength | chess_probability.py:47-52 | for non-negative probabilities summing to 1 the bar has between 28 and 30 glyphs |
| ProbabilityBar.EngineBarLength | chess_probability.py:41-52 | the bar drawn for any engine output has between 28 and 30 glyphs |

## Left out

- `main` (chess_probability.py:68-108): the interactive prompt loop, parsing typed numbers with `float`, and its `ValueError` and `KeyboardInterrupt` handling. These are input and output only.
- The percentage formatting and the "dominating" and "high draw chance" comments printed by `main`. These are output text only.
- The actual values of `math.exp`, `10 ** x` and `a ** 1.5`. They are parameters that meet `Transcendentals.Valid`. So scenarios that need concrete values, such as 2000/2000/+1.0, are not stated.
- IEEE-754 floating point: rounding, `OverflowError` from `math.exp` or `10 **` at extreme inputs,. The model uses exact reals, so the output sums to exactly 1.
- Non-finite inputs: a NaN anywhere yields (0, 1, 0), because `min(0.65, nan)` is 0.65 and `max(0, nan)` is 0 (chess_probability.py:35, 37-38); infinite inputs give finite triples unless they produce a NaN, as inf - inf in the ratings does. Reals have neither, so this case is not modelled.
- Monotonicity of the white win probability in white's rating, because the code does not guarantee it.
