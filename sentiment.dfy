/** The bucketing of a sentiment polarity score into a category (`analyze_sentiment`)
    and into a chart colour (`get_sentiment_color`). The score itself comes from
    the polarity collaborator. */
module Sentiment {

  datatype Category = Positive | Neutral | Negative

  /** Scores strictly above this are positive; strictly below its negation, negative. */
  const Threshold: real := 0.3

  /** The category `analyze_sentiment` returns with the score. */
  function Classify(score: real): (c: Category)
    ensures c == Positive <==> score > Threshold
    ensures c == Negative <==> score < -Threshold
    ensures c == Neutral <==> -Threshold <= score <= Threshold
  {
    if score > 0.3 then Positive
    else if score < -0.3 then Negative
    else Neutral
  }

  /** `get_sentiment_color` */
  function Color(score: real): (c: string)
    ensures c in {"green", "red", "yellow"}
  {
    if score > 0.3 then "green"
    else if score < -0.3 then "red"
    else "yellow"
  }

  /** Position of a category on the negative-to-positive scale. */
  function Rank(c: Category): int {
    match c
    case Negative => -1
    case Neutral => 0
    case Positive => 1
  }

  /** The chart colour of a score is determined by its category, and each
      category has its own colour. */
  lemma ColorFollowsCategory(x: real, y: real)
    ensures Color(x) == "green" <==> Classify(x) == Positive
    ensures Color(x) == "red" <==> Classify(x) == Negative
    ensures Color(x) == "yellow" <==> Classify(x) == Neutral
    ensures Classify(x) == Classify(y) <==> Color(x) == Color(y)
  {
  }

  /** A higher score never falls into a lower category, and negating a score
      mirrors its category. */
  lemma ClassifyIsMonotoneAndSymmetric(x: real, y: real)
    ensures x <= y ==> Rank(Classify(x)) <= Rank(Classify(y))
    ensures Rank(Classify(-x)) == -Rank(Classify(x))
  {
  }
}
