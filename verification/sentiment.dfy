/** Sentiment labelling (`calculate_sentiment` in src/enricher.rs): the
    compound polarity score of the record's text, produced by an external
    analyser, is mapped to one of three labels by two fixed cut-offs. */
module Sentiment {
  import opened Wrappers

  datatype Label = Negative | Neutral | Positive

  /** Scores at or above this are Positive. */
  const PositiveCutoff: real := 0.05
  /** Scores at or below this (and below PositiveCutoff) are Negative. */
  const NegativeCutoff: real := -0.05

  /** The label of a compound score; each label owns one interval of scores. */
  function Classify(compound: real): (l: Label)
    ensures l == Positive <==> compound >= PositiveCutoff
    ensures l == Negative <==> compound <= NegativeCutoff
    ensures l == Neutral <==> NegativeCutoff < compound < PositiveCutoff
  {
    if compound >= PositiveCutoff then Positive
    else if compound <= NegativeCutoff then Negative
    else Neutral
  }

  /** The string the record carries for a label. */
  function Name(l: Label): string {
    match l
    case Positive => "Positive"
    case Negative => "Negative"
    case Neutral => "Neutral"
  }

  /** Labels ordered from most negative to most positive. */
  function Rank(l: Label): nat {
    match l
    case Negative => 0
    case Neutral => 1
    case Positive => 2
  }

  /** `calculate_sentiment`: always present, always exactly one label, and
      the label's name says which interval the text's compound score lies in. */
  function CalculateSentiment(text: string, compound: string -> real): (r: Option<seq<string>>)
    ensures r.Some? && |r.value| == 1
    ensures r.value[0] == "Positive" <==> compound(text) >= PositiveCutoff
    ensures r.value[0] == "Negative" <==> compound(text) <= NegativeCutoff
    ensures r.value[0] == "Neutral" <==> NegativeCutoff < compound(text) < PositiveCutoff
  {
    Some([Name(Classify(compound(text)))])
  }

  /** A label name identifies its label. */
  lemma NameInjective(a: Label, b: Label)
    ensures Name(a) == Name(b) ==> a == b
  {
  }

  /** A higher score never gets a more negative label. */
  lemma ClassifyMonotone(a: real, b: real)
    requires a <= b
    ensures Rank(Classify(a)) <= Rank(Classify(b))
  {
  }
}
