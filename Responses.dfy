/** The response selector: `get_response`, a lookup of the lower-cased category string in a
    fixed table of five replies. */
module Responses {
  import opened Wrappers
  import opened Values
  import opened Sentiment
  import Text

  /** The reply table, one literal reply per category; none of them is empty. */
  function Reply(c: Category): (r: string)
    ensures |r| > 0
  {
    match c
    case VeryPositive => "That's wonderful to hear! Your positive energy is contagious!"
    case Positive => "I'm glad you're feeling good! Keep that positive spirit!"
    case Neutral => "I understand. Would you like to tell me more about that?"
    case Negative => "I'm sorry you're feeling down. Would you like to talk about it?"
    case VeryNegative => "I hear that you're going through a difficult time. I'm here to listen and support you."
  }

  /** Different categories get different replies, so the reply tells which category was detected. */
  lemma ReplyInjective(c1: Category, c2: Category)
    ensures Reply(c1) == Reply(c2) ==> c1 == c2
  {
  }

  /** Whether `key` is one of the five keys of the reply table. */
  ghost predicate IsLabel(key: string) {
    exists c: Category :: Label(c) == key
  }

  /** The category whose label is the lower-cased `s`, if there is one: the table lookup with
      the key normalised first. */
  function ParseCategory(s: string): (r: Option<Category>)
    ensures r.Some? ==> Label(r.value) == Text.Lower(s)
    ensures r.None? <==> !IsLabel(Text.Lower(s))
  {
    var key := Text.Lower(s);
    if key == Label(VeryPositive) then Some(VeryPositive)
    else if key == Label(Positive) then Some(Positive)
    else if key == Label(Neutral) then Some(Neutral)
    else if key == Label(Negative) then Some(Negative)
    else if key == Label(VeryNegative) then Some(VeryNegative)
    else None
  }

  /** Labels are lower case, so every label parses back to its own category. */
  lemma ParseLabel(c: Category)
    ensures ParseCategory(Label(c)) == Some(c)
  {
    assert forall i :: 0 <= i < |Label(c)| ==> !Text.IsUpper(Label(c)[i]);
    Text.LowerOfLowerCase(Label(c));
    LabelInjective(c, ParseCategory(Label(c)).value);
  }

  /** Parsing succeeds with category `c` exactly when the lower-cased input is `c`'s label. */
  lemma ParseIff(s: string, c: Category)
    ensures ParseCategory(s) == Some(c) <==> Text.Lower(s) == Label(c)
  {
    if Text.Lower(s) == Label(c) {
      LabelInjective(c, ParseCategory(s).value);
    }
  }

  /** Parsing ignores case. */
  lemma ParseIgnoresCase(s: string)
    ensures ParseCategory(s) == ParseCategory(Text.Lower(s))
  {
    Text.LowerIdempotent(s);
  }

  const NotAStringMessage := "Sentiment category must be a string"
  const InvalidCategoryMessage := "Invalid sentiment category"

  /** `get_response(category)`: raises on a non-string and on a string whose lower-cased form is
      not one of the five labels; otherwise returns the reply for the category so named. */
  function GetResponse(category: Value): (r: Result<string, Exception>)
    ensures !category.PyStr? ==> r == Err(ValueError(NotAStringMessage))
    ensures category.PyStr? && !IsLabel(Text.Lower(category.s)) ==> r == Err(ValueError(InvalidCategoryMessage))
    ensures forall c :: category.PyStr? && Text.Lower(category.s) == Label(c) ==> r == Ok(Reply(c))
  {
    if !category.PyStr? then
      Err(ValueError(NotAStringMessage))
    else
      match ParseCategory(category.s)
      case None => Err(ValueError(InvalidCategoryMessage))
      case Some(c) =>
        assert forall c' :: Label(c') == Label(c) ==> c' == c by {
          forall c' ensures Label(c') == Label(c) ==> c' == c {
            LabelInjective(c', c);
          }
        }
        Ok(Reply(c))
  }

  /** `get_response` succeeds exactly on strings whose lower-cased form is a label. */
  lemma GetResponseSucceedsIff(category: Value)
    ensures GetResponse(category).Ok? <==> category.PyStr? && IsLabel(Text.Lower(category.s))
  {
  }

  /** `get_response` ignores case: any spelling of a label gets the same reply as its lower-case
      form, and so does any other string (both raise). */
  lemma GetResponseIgnoresCase(s: string)
    ensures GetResponse(PyStr(s)) == GetResponse(PyStr(Text.Lower(s)))
  {
    Text.LowerIdempotent(s);
  }

  /** The upper-case spelling "VERY POSITIVE" lower-cases to the label of `VeryPositive`. */
  lemma LowerOfUpperLabel()
    ensures Text.Lower("VERY POSITIVE") == Label(VeryPositive)
  {
    var s := "VERY POSITIVE";
    assert forall i :: 0 <= i < |s| ==> Text.LowerChar(s[i]) == Label(VeryPositive)[i];
  }

  /** The upper-case spelling of a label is answered as the label itself. */
  lemma UpperCaseLabel()
    ensures GetResponse(PyStr("VERY POSITIVE")) == GetResponse(PyStr("very positive"))
    ensures GetResponse(PyStr("very positive")) == Ok(Reply(VeryPositive))
  {
    LowerOfUpperLabel();
  }

  /** A string of no label's length, in whatever case, is refused as an invalid category. */
  lemma WrongLengthRefused(s: string)
    requires |s| != 7 && |s| != 8 && |s| != 13
    ensures GetResponse(PyStr(s)) == Err(ValueError(InvalidCategoryMessage))
  {
    assert ParseCategory(s) == None;
  }

  /** The two refusals test_project.py's tests exercise. */
  lemma UnknownCategory()
    ensures GetResponse(PyStr("invalid_category")) == Err(ValueError(InvalidCategoryMessage))
    ensures GetResponse(PyInt(123)) == Err(ValueError(NotAStringMessage))
  {
    WrongLengthRefused("invalid_category");
  }

  /** Classify-then-respond never reaches the "Invalid sentiment category" branch: whenever
      `analyze_sentiment` accepts a text, the category string of its result gets the fixed reply
      of that category. */
  lemma AnalyzeThenRespond(text: Value, scorer: Scorer)
    requires AnalyzeSentiment(text, scorer).Ok?
    ensures var result := AnalyzeSentiment(text, scorer).value;
            GetResponse(result.AsValue().fields["category"]) == Ok(Reply(result.category))
  {
    ParseLabel(AnalyzeSentiment(text, scorer).value.category);
  }
}
