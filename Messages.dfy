/** The message formatter: `format_message`, which wraps a speaker, a message and an optional
    sentiment into a timestamped record. */
module Messages {
  import opened Wrappers
  import opened Values

  /** One logged utterance. The sentiment is absent, not null, when none was supplied. */
  datatype Record = Record(timestamp: string, speaker: string, message: string, sentiment: Option<Value>) {

    /** The record as the dictionary that is logged: exactly the keys timestamp, speaker and
        message, plus "sentiment" exactly when the record carries a sentiment, which it then holds. */
    function AsValue(): (v: Value)
      ensures v.PyDict?
      ensures v.fields.Keys == {"timestamp", "speaker", "message"} + (if sentiment.Some? then {"sentiment"} else {})
      ensures v.fields["timestamp"] == PyStr(timestamp)
      ensures v.fields["speaker"] == PyStr(speaker) && v.fields["message"] == PyStr(message)
      ensures "sentiment" in v.fields <==> sentiment.Some?
      ensures sentiment.Some? ==> v.fields["sentiment"] == sentiment.value
    {
      var base := map["timestamp" := PyStr(timestamp), "speaker" := PyStr(speaker), "message" := PyStr(message)];
      match sentiment
      case None => PyDict(base)
      case Some(s) => PyDict(base["sentiment" := s])
    }
  }

  const NotStringsMessage := "Speaker and message must be strings"

  /** `format_message(speaker, message, sentiment)` at the instant `timestamp` (the wall clock is
      read by the caller): raises unless speaker and message are both strings; otherwise copies
      them unchanged, and records the sentiment exactly when it is truthy. */
  function FormatMessage(speaker: Value, message: Value, sentiment: Value, timestamp: string): (r: Result<Record, Exception>)
    ensures r.Err? <==> !speaker.PyStr? || !message.PyStr?
    ensures r.Err? ==> r.error == ValueError(NotStringsMessage)
    ensures r.Ok? ==> r.value.timestamp == timestamp
    ensures r.Ok? ==> r.value.speaker == speaker.s && r.value.message == message.s
    ensures r.Ok? ==> (r.value.sentiment.Some? <==> Truthy(sentiment))
    ensures r.Ok? && r.value.sentiment.Some? ==> r.value.sentiment.value == sentiment
  {
    if !speaker.PyStr? || !message.PyStr? then
      Err(ValueError(NotStringsMessage))
    else if Truthy(sentiment) then
      Ok(Record(timestamp, speaker.s, message.s, Some(sentiment)))
    else
      Ok(Record(timestamp, speaker.s, message.s, None))
  }

  /** Without a sentiment argument (Python's default `None`), or with a falsy one such as an empty
      dictionary, the logged dictionary has no "sentiment" key at all; with a truthy one, the key
      holds exactly the argument. */
  lemma SentimentKeyPresence(speaker: string, message: string, sentiment: Value, timestamp: string)
    ensures var d := FormatMessage(PyStr(speaker), PyStr(message), sentiment, timestamp).value.AsValue().fields;
            ("sentiment" in d <==> Truthy(sentiment)) && ("sentiment" in d ==> d["sentiment"] == sentiment)
    ensures "sentiment" !in FormatMessage(PyStr(speaker), PyStr(message), PyNone, timestamp).value.AsValue().fields
    ensures "sentiment" !in FormatMessage(PyStr(speaker), PyStr(message), PyDict(map[]), timestamp).value.AsValue().fields
  {
  }
}
