/** The three-way label rule applied to a compound polarity score. */
module Sentiment {

  datatype Label = Positive | Negative | Neutral

  /** The cut-offs of the rule. The source writes the binary floating-point
      literals 0.05 and -0.05; here they are the exact rationals 1/20 and -1/20. */
  const PositiveThreshold: real := 0.05
  const NegativeThreshold: real := -0.05

  /** `get_sentiment`: the label of a compound score. Positive is tested
      first, but the two ranges are disjoint, so each label holds on exactly
      one interval and every score gets exactly one label. */
  function Classify(score: real): (l: Label)
    ensures l == Positive <==> score >= PositiveThreshold
    ensures l == Negative <==> score <= NegativeThreshold
    ensures l == Neutral <==> NegativeThreshold < score < PositiveThreshold
  {
    if score >= PositiveThreshold then Positive
    else if score <= NegativeThreshold then Negative
    else Neutral
  }

  /** The boundary cases: both cut-offs belong to the polar labels. */
  lemma ClassifyBoundaries()
    ensures Classify(0.05) == Positive
    ensures Classify(-0.05) == Negative
    ensures Classify(0.0) == Neutral
    ensures Classify(0.049999) == Neutral
    ensures Classify(-0.049999) == Neutral
  {
  }

  /** The string the source stores in the `sentiment` column. */
  function Name(l: Label): string
  {
    match l
    case Positive => "Positive"
    case Negative => "Negative"
    case Neutral => "Neutral"
  }

  /** Position of a label when labels are sorted as strings. */
  function Rank(l: Label): nat
  {
    match l
    case Negative => 0
    case Neutral => 1
    case Positive => 2
  }

  /** Lexicographic order on strings, the order a data frame sorts a string key by. */
  predicate LexLess(a: string, b: string)
  {
    if a == [] then b != []
    else if b == [] then false
    else if a[0] == b[0] then LexLess(a[1..], b[1..])
    else a[0] < b[0]
  }

  /** Ordering labels by Rank is ordering their names as strings. */
  lemma RankIsNameOrder(a: Label, b: Label)
    ensures Rank(a) < Rank(b) <==> LexLess(Name(a), Name(b))
  {
    assert LexLess("gative", "utral");
    assert !LexLess("utral", "gative");
    assert LexLess("Negative", "Neutral");
    assert !LexLess("Neutral", "Negative");
    assert !LexLess("Negative", "Negative");
    assert !LexLess("Neutral", "Neutral");
    assert !LexLess("Positive", "Positive");
  }
}
