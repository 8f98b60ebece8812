/**
 * The evaluation indicator: a signed pawn evaluation is labelled with the
 * side it favours and how strongly, on a ladder with steps at 0.5, 1.5 and
 * 3.0 pawns.
 */
module EvalLabel {
  import opened RealMath

  datatype Side = White | Black

  datatype Magnitude = Slight | Clear | Decisive | Crushing

  datatype Verdict = Balanced | Better(side: Side, magnitude: Magnitude) {

    /** The same verdict with the sides exchanged. */
    function Mirror(): Verdict {
      match this
      case Balanced => Balanced
      case Better(side, m) => Better(if side == White then Black else White, m)
    }
  }

  /** Lower and upper ends of the half-open interval of evaluation sizes each magnitude covers. */
  function LowerEnd(m: Magnitude): real {
    match m
    case Slight => 0.0
    case Clear => 0.5
    case Decisive => 1.5
    case Crushing => 3.0
  }

  /** The interval [LowerEnd(m), UpperEnd(m)); `Crushing` is unbounded above. */
  predicate InBucket(m: Magnitude, size: real) {
    && LowerEnd(m) <= size
    && match m
       case Slight => size < 0.5
       case Clear => size < 1.5
       case Decisive => size < 3.0
       case Crushing => true
  }

  /** The threshold ladder the indicator walks for an evaluation of the given size. */
  function Ladder(size: real): (m: Magnitude)
    ensures size >= 0.0 ==> InBucket(m, size)
  {
    if size < 0.5 then Slight
    else if size < 1.5 then Clear
    else if size < 3.0 then Decisive
    else Crushing
  }

  /** The verdict the indicator shows for an evaluation in pawns. */
  function Classify(eval: real): (v: Verdict)
    ensures v == Balanced <==> eval == 0.0
    ensures v.Better? ==> (v.side == White <==> eval > 0.0)
    ensures v.Better? ==> InBucket(v.magnitude, Abs(eval))
  {
    if eval > 0.0 then Better(White, Ladder(Abs(eval)))
    else if eval < 0.0 then Better(Black, Ladder(Abs(eval)))
    else Balanced
  }

  /** The text the indicator prints for each verdict: it shows the favoured side's king, and no king when balanced. */
  function Label(v: Verdict): (text: string)
    ensures '♔' in text <==> v.Better? && v.side == White
    ensures '♚' in text <==> v.Better? && v.side == Black
  {
    match v
    case Balanced => "⚖️  balanced"
    case Better(White, Slight) => "⚖️  ♔ slightly better"
    case Better(White, Clear) => "👍 ♔ clearly better"
    case Better(White, Decisive) => "🔥 ♔ decisive"
    case Better(White, Crushing) => "🏆 ♔ crushing"
    case Better(Black, Slight) => "⚖️  ♚ slightly better"
    case Better(Black, Clear) => "👍 ♚ clearly better"
    case Better(Black, Decisive) => "🔥 ♚ decisive"
    case Better(Black, Crushing) => "🏆 ♚ crushing"
  }

  /** The indicator text for an evaluation in pawns: white's king for a positive one, black's for a negative one. */
  function EvalEmoji(eval: real): (text: string)
    ensures '♔' in text <==> eval > 0.0
    ensures '♚' in text <==> eval < 0.0
  {
    Label(Classify(eval))
  }

  /** The four magnitude intervals partition the non-negative reals: a size lies in exactly the bucket the ladder picks. */
  lemma BucketsPartition(size: real, m: Magnitude)
    requires size >= 0.0
    ensures InBucket(m, size) <==> m == Ladder(size)
  {
  }

  /** An evaluation and its negation get the same magnitude for opposite sides. */
  lemma ClassifyAntisymmetric(eval: real)
    ensures Classify(-eval) == Classify(eval).Mirror()
  {
  }

  /** Distinct verdicts print distinct text, so the text determines the verdict. */
  lemma LabelInjective(v: Verdict, w: Verdict)
    requires Label(v) == Label(w)
    ensures v == w
  {
  }

  /** Two evaluations print the same text exactly when they get the same verdict. */
  lemma EvalEmojiDeterminesVerdict(a: real, b: real)
    ensures EvalEmoji(a) == EvalEmoji(b) <==> Classify(a) == Classify(b)
  {
    if EvalEmoji(a) == EvalEmoji(b) {
      LabelInjective(Classify(a), Classify(b));
    }
  }
}
