/** The market sentiment meter: drift over volatility as a score, read
    through a ladder of thresholds into one of seven ordered labels, each
    shown in its own colour. */
module Sentiment {

  datatype Label =
    | VeryBearish
    | Bearish
    | SlightlyBearish
    | Neutral
    | SlightlyBullish
    | Bullish
    | VeryBullish

  /** `volVal === 0 ? 0 : driftVal / volVal` */
  function Score(drift: real, volatility: real): (score: real)
    ensures volatility != 0.0 ==> score * volatility == drift
    ensures volatility == 0.0 ==> score == 0.0
  {
    if volatility == 0.0 then 0.0 else drift / volatility
  }

  /** The threshold ladder, tested from the most bearish band upwards. */
  function Classify(score: real): (l: Label)
    ensures l == Neutral <==> 0.0 <= score < 0.05
    ensures l == VeryBullish <==> score >= 0.5
  {
    if score <= -1.0 then VeryBearish
    else if score <= -0.3 then Bearish
    else if score < 0.0 then SlightlyBearish
    else if score < 0.05 then Neutral
    else if score < 0.2 then SlightlyBullish
    else if score < 0.5 then Bullish
    else VeryBullish
  }

  /** Position of a label from most bearish (0) to most bullish (6). */
  function Rank(l: Label): nat
  {
    match l
    case VeryBearish => 0
    case Bearish => 1
    case SlightlyBearish => 2
    case Neutral => 3
    case SlightlyBullish => 4
    case Bullish => 5
    case VeryBullish => 6
  }

  /** The colour each label is drawn in. */
  function Colour(l: Label): string
  {
    match l
    case VeryBearish => "#8B0000"
    case Bearish => "red"
    case SlightlyBearish => "orangered"
    case Neutral => "gray"
    case SlightlyBullish => "lightgreen"
    case Bullish => "green"
    case VeryBullish => "darkgreen"
  }

  /** Each label is exactly its band of scores. */
  lemma ClassifyBands(score: real)
    ensures Classify(score) == VeryBearish <==> score <= -1.0
    ensures Classify(score) == Bearish <==> -1.0 < score <= -0.3
    ensures Classify(score) == SlightlyBearish <==> -0.3 < score < 0.0
    ensures Classify(score) == Neutral <==> 0.0 <= score < 0.05
    ensures Classify(score) == SlightlyBullish <==> 0.05 <= score < 0.2
    ensures Classify(score) == Bullish <==> 0.2 <= score < 0.5
    ensures Classify(score) == VeryBullish <==> 0.5 <= score
  {
  }

  /** A higher score never gets a more bearish label. */
  lemma ClassifyMonotone(a: real, b: real)
    requires a <= b
    ensures Rank(Classify(a)) <= Rank(Classify(b))
  {
  }

  /** Bearish labels are exactly the negative scores. */
  lemma BearishIffNegative(score: real)
    ensures Rank(Classify(score)) < Rank(Neutral) <==> score < 0.0
  {
  }

  /** Different labels are drawn in different colours, so the colour alone
      tells the label. */
  lemma ColoursDistinct(l1: Label, l2: Label)
    requires l1 != l2
    ensures Colour(l1) != Colour(l2)
  {
  }

  /** Zero volatility scores 0, which reads as neutral; for a positive
      volatility the score has the drift's sign. */
  lemma ScoreFacts(drift: real, volatility: real)
    ensures volatility == 0.0 ==> Score(drift, volatility) == 0.0 && Classify(Score(drift, volatility)) == Neutral
    ensures volatility > 0.0 ==> (Score(drift, volatility) < 0.0 <==> drift < 0.0)
  {
    if volatility > 0.0 && drift < 0.0 {
      assert -drift / volatility > 0.0;
      assert -drift / volatility == -(drift / volatility);
    } else if volatility > 0.0 {
      assert drift / volatility >= 0.0;
    }
  }
}
