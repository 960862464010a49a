/** The three sentiment labels and the sign-based classifier of backend/utils.py. */
module Sentiment {

  datatype SentimentType = Positive | Negative | Neutral

  /** The label for `text`, from the sign of the polarity the scorer gives it. */
  function AnalyzeSentiment(text: string, polarity: string -> real): (verdict: SentimentType)
    ensures verdict == Positive <==> polarity(text) > 0.0
    ensures verdict == Negative <==> polarity(text) < 0.0
    ensures verdict == Neutral <==> polarity(text) == 0.0
  {
    var p := polarity(text);
    if p > 0.0 then Positive
    else if p < 0.0 then Negative
    else Neutral
  }
}
