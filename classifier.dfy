/**
 * The thresholding step of `analyze_sentiment`: the polarity produced by the
 * lexicon-based analyzer is sorted into one of three labels by two fixed
 * thresholds, with NEUTRAL inclusive at both ends.
 */
module Classifier {

  /** Polarities strictly below this are CRITICAL. */
  const CriticalBelow: real := -0.1
  /** Polarities strictly above this are POSITIVE. */
  const PositiveAbove: real := 0.1

  /** The analyzer's polarity score lies in [-1, 1]. */
  type Polarity = p: real | -1.0 <= p <= 1.0

  datatype Label = Critical | Neutral | Positive {
    /** The label as it appears in responses and stored records. */
    function Name(): string {
      match this
      case Critical => "CRITICAL"
      case Neutral => "NEUTRAL"
      case Positive => "POSITIVE"
    }

    /** Position on the negative-to-positive scale. */
    function Rank(): nat {
      match this
      case Critical => 0
      case Neutral => 1
      case Positive => 2
    }
  }

  /** The `(label, polarity)` pair `analyze_sentiment` returns. */
  datatype Classification = Classification(sentiment: Label, score: Polarity)

  function AnalyzeSentiment(polarity: Polarity): (r: Classification)
    ensures r.score == polarity
    ensures r.sentiment == Critical <==> polarity < CriticalBelow
    ensures r.sentiment == Positive <==> polarity > PositiveAbove
    ensures r.sentiment == Neutral <==> CriticalBelow <= polarity <= PositiveAbove
  {
    var sentiment :=
      if polarity < CriticalBelow then Critical
      else if polarity > PositiveAbove then Positive
      else Neutral;
    Classification(sentiment, polarity)
  }

  /** Both thresholds themselves classify as NEUTRAL. */
  lemma BoundariesAreNeutral()
    ensures AnalyzeSentiment(-0.1).sentiment == Neutral
    ensures AnalyzeSentiment(0.1).sentiment == Neutral
  {
  }

  /** A higher polarity never gets a more negative label. */
  lemma LabelMonotone(p: Polarity, q: Polarity)
    requires p <= q
    ensures AnalyzeSentiment(p).sentiment.Rank() <= AnalyzeSentiment(q).sentiment.Rank()
  {
  }

  /** Each of the three labels is produced by some polarity. */
  lemma EveryLabelReachable(l: Label) returns (p: Polarity)
    ensures AnalyzeSentiment(p).sentiment == l
  {
    p := match l
      case Critical => -1.0
      case Neutral => 0.0
      case Positive => 1.0;
  }

  /** Distinct labels have distinct names, so a stored name identifies its label. */
  lemma NameInjective(a: Label, b: Label)
    requires a.Name() == b.Name()
    ensures a == b
  {
  }
}
