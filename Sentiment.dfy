/** The sentiment classifier: `analyze_sentiment`, a guard around an external polarity scorer
    followed by a five-way threshold ladder on the polarity. */
module Sentiment {
  import opened Wrappers
  import opened Values
  import Text

  /** The five sentiment buckets. */
  datatype Category = VeryPositive | Positive | Neutral | Negative | VeryNegative

  /** The category string `analyze_sentiment` puts in its result: a non-empty lower-case key of
      the reply table, of one of three lengths. */
  function Label(c: Category): (l: string)
    ensures |l| == 7 || |l| == 8 || |l| == 13
    ensures forall i :: 0 <= i < |l| ==> !Text.IsUpper(l[i])
  {
    match c
    case VeryPositive => "very positive"
    case Positive => "positive"
    case Neutral => "neutral"
    case Negative => "negative"
    case VeryNegative => "very negative"
  }

  /** Different categories carry different labels. */
  lemma LabelInjective(c1: Category, c2: Category)
    ensures Label(c1) == Label(c2) ==> c1 == c2
  {
    if c1 != c2 {
      match c1
      case Positive =>
        assert Label(c2)[0] != 'p' || |Label(c2)| != 8;
      case Negative =>
        assert Label(c2)[0] != 'n' || |Label(c2)| != 8;
      case _ =>
    }
  }

  /** What the external scorer (TextBlob) reports for a text. */
  datatype Score = Score(polarity: real, subjectivity: real)

  /** The external scorer, an oracle from the analysed text to its score. */
  type Scorer = string -> Score

  /** The five polarity bands, each stated on its own: together they are the bucket
      partition of the real line that the ladder implements. */
  ghost predicate InBand(c: Category, p: real) {
    match c
    case VeryPositive => p > 0.3
    case Positive => 0.0 < p <= 0.3
    case Neutral => p == 0.0
    case Negative => -0.3 < p < 0.0
    case VeryNegative => p <= -0.3
  }

  /** The threshold ladder: tried from the top, the first test that holds wins. */
  function Classify(p: real): (c: Category)
    ensures InBand(c, p)
  {
    if p > 0.3 then VeryPositive
    else if p > 0.0 then Positive
    else if p == 0.0 then Neutral
    else if p > -0.3 then Negative
    else VeryNegative
  }

  /** No polarity lies in two bands. */
  lemma BandsDisjoint(p: real, c1: Category, c2: Category)
    requires InBand(c1, p) && InBand(c2, p)
    ensures c1 == c2
  {
  }

  /** The ladder returns a category exactly when the polarity lies in that category's band. */
  lemma ClassifyIsBand(p: real, c: Category)
    ensures Classify(p) == c <==> InBand(c, p)
  {
    if InBand(c, p) {
      BandsDisjoint(p, c, Classify(p));
    }
  }

  /** The boundary cases: 0.3 itself is positive, -0.3 itself is very negative, and zero is a
      bucket of its own. */
  lemma Boundaries(eps: real)
    requires 0.0 < eps < 0.3
    ensures Classify(0.3) == Positive && Classify(0.3 + eps) == VeryPositive
    ensures Classify(0.0) == Neutral && Classify(-eps) == Negative && Classify(eps) == Positive
    ensures Classify(-0.3) == VeryNegative && Classify(-0.3 + eps) == Negative
  {
  }

  /** Every polarity above 0.3 is very positive and every polarity at or below -0.3 is very
      negative, however far from the threshold. */
  lemma BeyondThresholds(eps: real)
    requires eps > 0.0
    ensures Classify(0.3 + eps) == VeryPositive && Classify(-0.3 - eps) == VeryNegative
  {
  }

  /** The dictionary `analyze_sentiment` returns. */
  datatype SentimentResult = SentimentResult(polarity: real, subjectivity: real, category: Category) {

    /** The result as the Python dictionary that the record of a user message embeds:
        three keys, so never empty, and a `category` string that is one of the labels. */
    function AsValue(): (v: Value)
      ensures Truthy(v) && v.PyDict?
      ensures v.fields.Keys == {"polarity", "subjectivity", "category"}
      ensures v.fields["polarity"] == PyFloat(polarity) && v.fields["subjectivity"] == PyFloat(subjectivity)
      ensures v.fields["category"] == PyStr(Label(category))
    {
      var fields := map["polarity" := PyFloat(polarity), "subjectivity" := PyFloat(subjectivity),
                        "category" := PyStr(Label(category))];
      assert "polarity" in fields;
      PyDict(fields)
    }
  }

  const InvalidTextMessage := "Input must be a non-empty string"

  /** `analyze_sentiment(text)`: raises on a non-string or a text of whitespace only; otherwise
      passes the scorer's polarity and subjectivity through unchanged, with the category whose
      band the polarity lies in. */
  function AnalyzeSentiment(text: Value, scorer: Scorer): (r: Result<SentimentResult, Exception>)
    ensures r.Err? <==> !text.PyStr? || forall i :: 0 <= i < |text.s| ==> Text.IsSpace(text.s[i])
    ensures r.Err? ==> r.error == ValueError(InvalidTextMessage)
    ensures r.Ok? ==> r.value.polarity == scorer(text.s).polarity
    ensures r.Ok? ==> r.value.subjectivity == scorer(text.s).subjectivity
    ensures r.Ok? ==> InBand(r.value.category, r.value.polarity)
  {
    if !text.PyStr? then
      Err(ValueError(InvalidTextMessage))
    else
      Text.StripSpec(text.s);
      if Text.Strip(text.s) == [] then
        Err(ValueError(InvalidTextMessage))
      else
        var score := scorer(text.s);
        Ok(SentimentResult(score.polarity, score.subjectivity, Classify(score.polarity)))
  }

  /** The refusals test_project.py's tests exercise, and one of whitespace only: nothing is scored. */
  lemma RefusedTexts(scorer: Scorer)
    ensures AnalyzeSentiment(PyStr(""), scorer) == Err(ValueError(InvalidTextMessage))
    ensures AnalyzeSentiment(PyInt(123), scorer) == Err(ValueError(InvalidTextMessage))
    ensures AnalyzeSentiment(PyStr(" \t\n"), scorer) == Err(ValueError(InvalidTextMessage))
  {
  }

  /** The category depends on the polarity alone: two scorers that agree on the polarity of a text
      give it the same category, whatever subjectivity they report. */
  lemma SubjectivityIrrelevant(text: Value, s1: Scorer, s2: Scorer)
    requires text.PyStr? && s1(text.s).polarity == s2(text.s).polarity
    ensures AnalyzeSentiment(text, s1).Ok? == AnalyzeSentiment(text, s2).Ok?
    ensures AnalyzeSentiment(text, s1).Ok? ==>
              AnalyzeSentiment(text, s1).value.category == AnalyzeSentiment(text, s2).value.category
  {
  }
}
