/**
 * The probability bar: each probability times 30 is truncated to a glyph
 * count, and the bar is that many white-king glyphs, then handshake glyphs,
 * then black-king glyphs.
 */
module ProbabilityBar {
  import RealMath
  import Probability

  /** The three glyph kinds, in the order the bar shows them. */
  datatype Glyph = WhiteKing | Handshake | BlackKing

  /** The bar is 30 glyphs wide for a probability of one. */
  const Width: real := 30.0

  /** Python's `int` on a real: rounds toward zero. */
  function Trunc(x: real): (n: int)
    ensures x >= 0.0 ==> n as real <= x < n as real + 1.0
    ensures x < 0.0 ==> n as real - 1.0 < x <= n as real
  {
    if x >= 0.0 then x.Floor else -((-x).Floor)
  }

  /** Python's `glyph * n`: `n` copies, and none at all when `n` is not positive. */
  function Repeat(g: Glyph, n: int): (s: seq<Glyph>)
    ensures |s| == if n > 0 then n else 0
    ensures forall i :: 0 <= i < |s| ==> s[i] == g
  {
    if n <= 0 then [] else [g] + Repeat(g, n - 1)
  }

  /** How many glyphs a probability is worth: thirty times it, rounded toward zero. */
  function Cells(p: real): (n: int)
    ensures p >= 0.0 ==> 0 <= n && n as real <= p * Width < n as real + 1.0
    ensures p < 0.0 ==> n <= 0
  {
    Trunc(p * Width)
  }

  /** The glyphs of the bar: its length is the sum of the three counts, each taken as zero when negative. */
  function Bar(win: real, draw: real, loss: real): (s: seq<Glyph>)
    ensures |s| == NonNeg(Cells(win)) + NonNeg(Cells(draw)) + NonNeg(Cells(loss))
  {
    Repeat(WhiteKing, Cells(win)) + Repeat(Handshake, Cells(draw)) + Repeat(BlackKing, Cells(loss))
  }

  /** The character each glyph kind is printed as. */
  function GlyphChar(g: Glyph): char {
    match g
    case WhiteKing => '♔'
    case Handshake => '🤝'
    case BlackKing => '♚'
  }

  /** The glyphs printed one character each. */
  function Render(s: seq<Glyph>): (text: string)
    ensures |text| == |s|
    ensures forall i :: 0 <= i < |s| ==> text[i] == GlyphChar(s[i])
  {
    if s == [] then "" else [GlyphChar(s[0])] + Render(s[1..])
  }

  /** The printed bar: a die, an opening bracket, the glyphs, a closing bracket. */
  function BarText(win: real, draw: real, loss: real): (text: string)
    ensures var s := Bar(win, draw, loss);
            && |text| == |s| + 4
            && text[..3] == "🎲 ["
            && text[|text| - 1] == ']'
            && forall i :: 0 <= i < |s| ==> text[3 + i] == GlyphChar(s[i])
  {
    "🎲 [" + Render(Bar(win, draw, loss)) + "]"
  }

  function NonNeg(n: int): nat {
    if n > 0 then n else 0
  }

  /** Number of occurrences of `g` in `s`. */
  function Occurrences(s: seq<Glyph>, g: Glyph): nat {
    if s == [] then 0 else (if s[0] == g then 1 else 0) + Occurrences(s[1..], g)
  }

  /** Position of a glyph kind in the bar's left-to-right order. */
  function Rank(g: Glyph): nat {
    match g
    case WhiteKing => 0
    case Handshake => 1
    case BlackKing => 2
  }

  lemma {:induction false} OccurrencesConcat(a: seq<Glyph>, b: seq<Glyph>, g: Glyph)
    ensures Occurrences(a + b, g) == Occurrences(a, g) + Occurrences(b, g)
  {
    if a == [] {
      assert a + b == b;
    } else {
      assert (a + b)[1..] == a[1..] + b;
      OccurrencesConcat(a[1..], b, g);
    }
  }

  lemma {:induction false} OccurrencesRepeat(g: Glyph, n: int, h: Glyph)
    ensures Occurrences(Repeat(g, n), h) == if g == h && n > 0 then n else 0
  {
    if n > 0 {
      assert Repeat(g, n)[1..] == Repeat(g, n - 1);
      OccurrencesRepeat(g, n - 1, h);
    }
  }

  /** The bar holds exactly the truncated count of each glyph kind (none for a non-positive count). */
  lemma BarTally(win: real, draw: real, loss: real)
    ensures Occurrences(Bar(win, draw, loss), WhiteKing) == NonNeg(Cells(win))
    ensures Occurrences(Bar(win, draw, loss), Handshake) == NonNeg(Cells(draw))
    ensures Occurrences(Bar(win, draw, loss), BlackKing) == NonNeg(Cells(loss))
  {
    var w := Repeat(WhiteKing, Cells(win));
    var d := Repeat(Handshake, Cells(draw));
    var b := Repeat(BlackKing, Cells(loss));
    forall g: Glyph
      ensures Occurrences(Bar(win, draw, loss), g) == Occurrences(w, g) + Occurrences(d, g) + Occurrences(b, g)
    {
      OccurrencesConcat(w + d, b, g);
      OccurrencesConcat(w, d, g);
    }
    forall g: Glyph, h: Glyph, n: int
      ensures Occurrences(Repeat(g, n), h) == if g == h && n > 0 then n else 0
    {
      OccurrencesRepeat(g, n, h);
    }
  }

  /** For non-negative probabilities each count is the floor of thirty times the probability. */
  lemma CellsOfProbability(p: real)
    requires p >= 0.0
    ensures Cells(p) == (p * Width).Floor
    ensures Cells(p) >= 0
  {
  }

  /** The bar shows all white-win glyphs first, then the draw glyphs, then the black-win glyphs. */
  lemma BarOrdered(win: real, draw: real, loss: real)
    ensures var s := Bar(win, draw, loss);
            forall i, j :: 0 <= i < j < |s| ==> Rank(s[i]) <= Rank(s[j])
  {
  }

  /** For a probability distribution the bar is between 28 and 30 glyphs long. */
  lemma BarLength(win: real, draw: real, loss: real)
    requires win >= 0.0 && draw >= 0.0 && loss >= 0.0
    requires win + draw + loss == 1.0
    ensures 28 <= |Bar(win, draw, loss)| <= 30
  {
    CellsOfProbability(win);
    CellsOfProbability(draw);
    CellsOfProbability(loss);
  }

  /** The bar drawn for any output of the engine is between 28 and 30 glyphs long. */
  lemma EngineBarLength(t: RealMath.Transcendentals, white: real, black: real, eval: real)
    requires t.Valid()
    ensures var r := Probability.CalculateProbabilities(t, white, black, eval);
            28 <= |Bar(r.win, r.draw, r.loss)| <= 30
  {
    var r := Probability.CalculateProbabilities(t, white, black, eval);
    BarLength(r.win, r.draw, r.loss);
  }
}
